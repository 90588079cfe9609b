/** The delivery protocol (server/src/adapters/redpanda.rs, with the game loop of
    server/src/main.rs at the other end of its channel) as a step relation. Any number of
    consumer groups share one command topic and one bounded channel; steps interleave
    freely, acknowledgements may come late, commits may be lost, groups may be rebalanced
    and the process may be restarted. */
module Delivery {
  import opened Types
  import opened Decider
  import opened Ports
  import opened Service
  import opened GameLoop

  /** A record of the command topic: a decodable command, or anything else. */
  datatype Message = Readable(env: CommandEnvelope) | Unreadable

  /** A command on its way to the game loop. The identity stands for its own one-shot
      acknowledgement channel. */
  datatype Ticket = Ticket(id: nat, group: nat, offset: nat, env: CommandEnvelope)

  datatype Consumer =
    | Idle
    | Sending(offset: nat, env: CommandEnvelope)
    | Waiting(ticket: Ticket, signal: Signal)

  /** `position` is the next offset to fetch; `inFlight` are commits not yet taken up by the
      broker, which holds `committed`. */
  datatype Group = Group(position: nat, committed: nat, consumer: Consumer, inFlight: seq<nat>)

  /** One call of `handle` for a ticket; `inTime` if its consumer was still waiting for it. */
  datatype Handling = Handling(ticket: Ticket, result: HandleResult, inTime: bool)

  /** The last four fields are history: they record, and no step depends on them but for
      the freshness of `nextId`. */
  datatype System = System(
    gameId: GameId,
    log: Log,
    topic: seq<Message>,
    channel: seq<Ticket>,
    groups: seq<Group>,
    nextId: nat,
    handled: seq<Handling>,
    commits: seq<Ticket>,
    calls: seq<GameCommand>)

  const CHANNEL_CAPACITY := 256

  function Init(gameId: GameId, groups: nat): System {
    System(gameId, [], [], [], seq(groups, i => Group(0, 0, Idle, [])), 0, [], [], [])
  }

  datatype Action =
    | Inject(msg: Message)                                       // somebody writes to the topic
    | ClientCommand(id: CommandId, cmd: GameCommand, published: bool)
    | Fetch(group: nat)
    | Send(group: nat)
    | Drain(broadcastFails: bool)                                // the game loop takes one command
    | Resume(group: nat)                                         // the consumer sees its signal
    | Timeout(group: nat)
    | CommitEnds(group: nat, stored: bool)                       // an asynchronous commit, or its loss
    | Rebalance(group: nat)
    | Restart(newGameId: GameId)

  predicate Enabled(s: System, a: Action) {
    match a
    case Inject(_) => true
    case ClientCommand(_, _, _) => true
    case Fetch(g) => g < |s.groups| && s.groups[g].consumer.Idle? && s.groups[g].position < |s.topic|
    case Send(g) => g < |s.groups| && s.groups[g].consumer.Sending? && |s.channel| < CHANNEL_CAPACITY
    case Drain(_) => s.channel != []
    case Resume(g) => g < |s.groups| && s.groups[g].consumer.Waiting? && s.groups[g].consumer.signal != Pending
    case Timeout(g) => g < |s.groups| && s.groups[g].consumer.Waiting? && s.groups[g].consumer.signal == Pending
    case CommitEnds(g, _) => g < |s.groups| && s.groups[g].inFlight != []
    case Rebalance(g) => g < |s.groups| && s.groups[g].consumer.Idle?
    case Restart(_) => true
  }

  function ResultOf(gameId: GameId, log: Log, env: CommandEnvelope, broadcastFails: bool): HandleResult {
    if env.gameId != gameId then WrongGame(env.gameId, gameId)
    else
      match Decide(Hydrate(log), env.command)
      case Failure(e) => Refused(e)
      case Success(_) => if broadcastFails then BroadcastFailed else Done
  }

  /** The protocol sees exactly the results that the service may return. */
  lemma {:induction false} ResultsAreTheServices(gameId: GameId, log: Log, env: CommandEnvelope, r: HandleResult)
    ensures Returns(gameId, log, env, r) <==> exists fails :: r == ResultOf(gameId, log, env, fails)
  {
    if Returns(gameId, log, env, r) {
      assert r == ResultOf(gameId, log, env, r.BroadcastFailed?);
    }
  }

  /** The consumer of a ticket's group is still waiting for that very ticket. */
  predicate Awaited(s: System, t: Ticket) {
    t.group < |s.groups| &&
    var consumer := s.groups[t.group].consumer;
    consumer.Waiting? && consumer.ticket == t
  }

  function DrainOne(s: System, broadcastFails: bool): System
    requires s.channel != []
  {
    var t := s.channel[0];
    var r := ResultOf(s.gameId, s.log, t.env, broadcastFails);
    var signal := if Acknowledges(r) then Acked else Dropped;
    s.(
      log := HandleEnvelope(s.gameId, s.log, t.env),
      calls := if t.env.gameId == s.gameId then s.calls + [t.env.command] else s.calls,
      channel := s.channel[1..],
      handled := s.handled + [Handling(t, r, Awaited(s, t))],
      groups :=
        if Awaited(s, t) then s.groups[t.group := s.groups[t.group].(consumer := Waiting(t, signal))]
        else s.groups)
  }

  function WithGroup(s: System, g: nat, group: Group): System
    requires g < |s.groups|
  {
    s.(groups := s.groups[g := group])
  }

  function Next(s: System, a: Action): System
    requires Enabled(s, a)
  {
    match a
    case Inject(msg) => s.(topic := s.topic + [msg])
    case ClientCommand(id, cmd, published) =>
      s.(topic := if published then s.topic + [Readable(CommandEnvelope(id, s.gameId, cmd))] else s.topic,
         log := Handle(s.log, cmd),
         calls := s.calls + [cmd])
    case Fetch(g) =>
      var group := s.groups[g];
      var msg := s.topic[group.position];
      WithGroup(s, g, group.(
        position := group.position + 1,
        consumer := if msg.Readable? then Sending(group.position, msg.env) else Idle))
    case Send(g) =>
      var group := s.groups[g];
      var t := Ticket(s.nextId, g, group.consumer.offset, group.consumer.env);
      WithGroup(s, g, group.(consumer := Waiting(t, Pending))).(
        channel := s.channel + [t],
        nextId := s.nextId + 1)
    case Drain(fails) => DrainOne(s, fails)
    case Resume(g) =>
      var group := s.groups[g];
      var t := group.consumer.ticket;
      if group.consumer.signal == Acked then
        WithGroup(s, g, group.(consumer := Idle, inFlight := group.inFlight + [t.offset + 1])).(
          commits := s.commits + [t])
      else WithGroup(s, g, group.(consumer := Idle))
    case Timeout(g) => WithGroup(s, g, s.groups[g].(consumer := Idle))
    case CommitEnds(g, stored) =>
      var group := s.groups[g];
      WithGroup(s, g, group.(
        committed := if stored then group.inFlight[0] else group.committed,
        inFlight := group.inFlight[1..]))
    case Rebalance(g) =>
      var group := s.groups[g];
      WithGroup(s, g, Group(group.committed, group.committed, Idle, []))
    case Restart(newGameId) =>
      s.(gameId := newGameId, log := [], calls := [], channel := [],
         groups := seq(|s.groups|, g requires 0 <= g < |s.groups| =>
                     Group(s.groups[g].committed, s.groups[g].committed, Idle, [])))
  }

  ghost predicate IsChain(states: seq<System>, actions: seq<Action>) {
    && |states| == |actions| + 1
    && forall i :: 0 <= i < |actions| ==> Enabled(states[i], actions[i]) && states[i + 1] == Next(states[i], actions[i])
  }

  ghost predicate IsRun(states: seq<System>, actions: seq<Action>) {
    IsChain(states, actions) && exists gameId, n :: states[0] == Init(gameId, n)
  }
}
