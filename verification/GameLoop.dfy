/** The steps of the server's game loop (server/src/main.rs). */
module GameLoop {
  import opened Types
  import opened Decider
  import opened History
  import opened Ports
  import opened Service

  datatype ServerEvent =
    | ClientConnected(client: ClientId, name: string)
    | ClientDisconnected(client: ClientId)

  function CommandFor(ev: ServerEvent): GameCommand {
    match ev
    case ClientConnected(c, name) => JoinGame(c, name)
    case ClientDisconnected(c) => LeaveGame(c)
  }

  function CommandsFor(events: seq<ServerEvent>): seq<GameCommand> {
    seq(|events|, i requires 0 <= i < |events| => CommandFor(events[i]))
  }

  function Wrap(gameId: GameId, ids: seq<CommandId>, cmds: seq<GameCommand>): seq<CommandEnvelope>
    requires |ids| == |cmds|
  {
    seq(|cmds|, i requires 0 <= i < |cmds| => CommandEnvelope(ids[i], gameId, cmds[i]))
  }

  /** A server as its clients see it: its log, and what each connected client was sent. */
  datatype View = View(log: Log, streams: Streams)

  function Broadcasting(v: View, cmd: GameCommand): View {
    var log := Handle(v.log, cmd);
    LogGrowsByHandle(v.log, cmd);
    View(log, Sent(v.streams, log[|v.log|..]))
  }

  lemma {:induction false} LogGrowsByHandle(log: Log, cmd: GameCommand)
    ensures log <= Handle(log, cmd)
  {
  }

  function CaughtUp(v: View, c: ClientId): View {
    if c in v.streams then v.(streams := v.streams[c := v.streams[c] + v.log]) else v
  }

  /** A new client is first sent the history, then its join is handled. */
  function Connection(v: View, ev: ServerEvent): View {
    match ev
    case ClientConnected(c, _) => Broadcasting(CaughtUp(v, c), CommandFor(ev))
    case ClientDisconnected(_) => Broadcasting(v, CommandFor(ev))
  }

  function Connections(v: View, events: seq<ServerEvent>): View {
    if events == [] then v
    else Connection(Connections(v, events[..|events| - 1]), events[|events| - 1])
  }

  function Broadcasts(v: View, cmds: seq<GameCommand>): View {
    if cmds == [] then v else Broadcasting(Broadcasts(v, cmds[..|cmds| - 1]), cmds[|cmds| - 1])
  }

  lemma {:induction false} BroadcastsNone(v: View)
    ensures Broadcasts(v, []) == v
  {
  }

  lemma {:induction false} BroadcastsSnoc(v: View, cmds: seq<GameCommand>, cmd: GameCommand)
    ensures Broadcasts(v, cmds + [cmd]) == Broadcasting(Broadcasts(v, cmds), cmd)
  {
    assert (cmds + [cmd])[..|cmds|] == cmds;
  }

  lemma {:induction false} BroadcastsAppend(v: View, first: seq<GameCommand>, second: seq<GameCommand>)
    ensures Broadcasts(v, first + second) == Broadcasts(Broadcasts(v, first), second)
    decreases |second|
  {
    hide Broadcasting;
    if second == [] {
      assert first + second == first;
    } else {
      var n := |second| - 1;
      BroadcastsAppend(v, first, second[..n]);
      assert first + second == first + second[..n] + [second[n]];
      BroadcastsSnoc(v, first + second[..n], second[n]);
    }
  }

  // ── The same when broadcasts may fail ──

  /** A command whose broadcast may stop early: the log is the same, and every client is
      sent the same beginning of the new events. */
  ghost predicate MayHandle(v: View, cmd: GameCommand, w: View) {
    && w.log == Handle(v.log, cmd)
    && exists k :: |v.log| <= k <= |w.log| && w.streams == Sent(v.streams, w.log[|v.log|..k])
  }

  /** A catch-up that may stop early. */
  ghost predicate MayCatchUp(v: View, c: ClientId, w: View) {
    && w.log == v.log
    && exists k :: 0 <= k <= |v.log| &&
         w.streams == if c in v.streams then v.streams[c := v.streams[c] + v.log[..k]] else v.streams
  }

  ghost predicate MayConnect(v: View, ev: ServerEvent, w: View) {
    exists ready ::
      && (if ev.ClientConnected? then MayCatchUp(v, ev.client, ready) else ready == v)
      && MayHandle(ready, CommandFor(ev), w)
  }

  ghost predicate MayConnectAll(v: View, events: seq<ServerEvent>, w: View) {
    if events == [] then w == v
    else
      var n := |events| - 1;
      exists mid :: MayConnectAll(v, events[..n], mid) && MayConnect(mid, events[n], w)
  }

  ghost predicate MayRun(v: View, cmds: seq<GameCommand>, w: View) {
    if cmds == [] then w == v
    else
      var n := |cmds| - 1;
      exists mid :: MayRun(v, cmds[..n], mid) && MayHandle(mid, cmds[n], w)
  }

  lemma {:induction false} MayConnectSnoc(v: View, events: seq<ServerEvent>, mid: View, ev: ServerEvent, w: View)
    requires MayConnectAll(v, events, mid) && MayConnect(mid, ev, w)
    ensures MayConnectAll(v, events + [ev], w)
  {
    assert (events + [ev])[..|events|] == events;
  }

  lemma {:induction false} MayRunNone(v: View)
    ensures MayRun(v, [], v)
  {
  }

  lemma {:induction false} MayRunSnoc(v: View, cmds: seq<GameCommand>, mid: View, cmd: GameCommand, w: View)
    requires MayRun(v, cmds, mid) && MayHandle(mid, cmd, w)
    ensures MayRun(v, cmds + [cmd], w)
  {
    assert (cmds + [cmd])[..|cmds|] == cmds;
  }

  lemma {:induction false} MayRunAppend(v: View, first: seq<GameCommand>, mid: View, second: seq<GameCommand>, w: View)
    requires MayRun(v, first, mid) && MayRun(mid, second, w)
    ensures MayRun(v, first + second, w)
    decreases |second|
  {
    hide MayHandle;
    if second == [] {
      assert first + second == first;
    } else {
      var n := |second| - 1;
      var before :| MayRun(mid, second[..n], before) && MayHandle(before, second[n], w);
      MayRunAppend(v, first, mid, second[..n], before);
      MayRunSnoc(v, first + second[..n], before, second[n], w);
      assert first + second == first + second[..n] + [second[n]];
    }
  }

  /** Broadcasts that fail leave gaps, but the same ones for everybody: all clients are sent
      the same part of the new events, in order. */
  lemma {:induction false} FailuresAreShared(v: View, cmds: seq<GameCommand>, w: View) returns (lost: set<nat>)
    requires MayRun(v, cmds, w)
    ensures w.log == HandleAll(v.log, cmds) && v.log <= w.log
    ensures w.streams == Sent(v.streams, Kept(w.log[|v.log|..], lost))
    decreases |cmds|
  {
    hide Handle;
    if cmds == [] {
      HandleAllNone(v.log);
      SentNothing(v.streams);
      lost := {};
    } else {
      var n := |cmds| - 1;
      var mid :| MayRun(v, cmds[..n], mid) && MayHandle(mid, cmds[n], w);
      lost := FailuresAreShared(v, cmds[..n], mid);
      assert cmds == cmds[..n] + [cmds[n]];
      HandleAllSnoc(v.log, cmds[..n], cmds[n]);
      LogGrowsByHandle(mid.log, cmds[n]);
      var k :| |mid.log| <= k <= |w.log| && w.streams == Sent(mid.streams, w.log[|mid.log|..k]);
      SentTwice(v.streams, Kept(mid.log[|v.log|..], lost), w.log[|mid.log|..k]);
      lost := GapsExtend(v.log, mid.log, w.log, lost, k);
    }
  }

  /** One more batch, of which the first part arrives, after events some of which are lost. */
  lemma {:induction false} GapsExtend(a: Log, b: Log, c: Log, lost: set<nat>, k: nat) returns (more: set<nat>)
    requires a <= b <= c && |b| <= k <= |c|
    ensures Kept(c[|a|..], more) == Kept(b[|a|..], lost) + c[|b|..k]
  {
    var former, added := b[|a|..], c[|b|..];
    var rest := Interval(k - |b|, |added|);
    KeptPrefix(added, rest, k - |b|);
    assert added[..k - |b|] == c[|b|..k];
    more := KeptAppend(former, lost, added, rest);
    assert c[|a|..] == former + added;
  }

  function ServerView(service: GameService): (v: View)
    reads service.store, service.broadcaster
    ensures v.log == service.store.Events() && v.streams == service.broadcaster.streams
  {
    View(service.store.Events(), service.broadcaster.streams)
  }

  /** Handling one envelope, as the clients see it. */
  method HandleOne(service: GameService, env: CommandEnvelope) returns (r: HandleResult)
    requires service.Valid()
    modifies service.store, service.publisher, service.broadcaster
    ensures service.Valid()
    ensures Returns(service.store.gameId, old(service.store.Events()), env, r)
    ensures service.store.Events() == HandleEnvelope(service.store.gameId, old(service.store.Events()), env)
    ensures service.publisher.commands == old(service.publisher.commands)
    ensures r.BroadcastFailed? ==> service.broadcaster.faulty
    ensures if env.gameId == service.store.gameId then MayHandle(old(ServerView(service)), env.command, ServerView(service))
            else ServerView(service) == old(ServerView(service))
    ensures !service.broadcaster.faulty ==>
              ServerView(service) ==
              if env.gameId == service.store.gameId then Broadcasting(old(ServerView(service)), env.command)
              else old(ServerView(service))
  {
    ghost var before := ServerView(service);
    r := service.HandleCommand(env);
    ghost var after := ServerView(service);
    if r.Done? {
      assert after.log[|before.log|..|after.log|] == after.log[|before.log|..];
    } else if r.Refused? {
      assert after.log[|before.log|..|before.log|] == [];
    }
    SentNothing(before.streams);
    assert before.log[|before.log|..] == [];
  }

  /** One connect or disconnect: catch up a newcomer, publish the command, handle it. */
  method HandleConnection(service: GameService, ev: ServerEvent, id: CommandId)
    requires service.Valid()
    modifies service.store, service.publisher, service.broadcaster
    ensures service.Valid()
    ensures service.store.Events() == Handle(old(service.store.Events()), CommandFor(ev))
    ensures Reached(old(service.publisher.commands), [CommandEnvelope(id, service.store.gameId, CommandFor(ev))],
                    service.publisher.commands, service.publisher.lossy)
    ensures MayConnect(old(ServerView(service)), ev, ServerView(service))
    ensures !service.broadcaster.faulty ==>
              ServerView(service) == Connection(old(ServerView(service)), ev)
  {
    ghost var before := ServerView(service);
    ghost var ready := if ev.ClientConnected? then CaughtUp(before, ev.client) else before;
    if ev.ClientConnected? {
      var ok := service.CatchUp(ev.client);
      assert service.store.Events()[..|service.store.log|] == service.store.Events();
      assert ok ==> service.broadcaster.streams == ready.streams;
    }
    ghost var now := ServerView(service);
    assert ev.ClientConnected? ==> MayCatchUp(before, ev.client, now);
    var env := CommandEnvelope(id, service.store.gameId, CommandFor(ev));
    service.Publish(Command(env));
    var r := HandleOne(service, env);
    assert MayHandle(now, CommandFor(ev), ServerView(service));
  }

  method HandleConnections(service: GameService, events: seq<ServerEvent>, ids: seq<CommandId>)
    requires service.Valid() && |ids| == |events|
    modifies service.store, service.publisher, service.broadcaster
    ensures service.Valid()
    ensures service.store.Events() == HandleAll(old(service.store.Events()), CommandsFor(events))
    ensures Reached(old(service.publisher.commands), Wrap(service.store.gameId, ids, CommandsFor(events)),
                    service.publisher.commands, service.publisher.lossy)
    ensures MayConnectAll(old(ServerView(service)), events, ServerView(service))
    ensures !service.broadcaster.faulty ==>
              ServerView(service) == Connections(old(ServerView(service)), events)
  {
    hide Producible, Handle, HandleAll, Connection, Reached, MayConnect;
    HandleAllNone(service.store.Events());
    ReachedNothing(service.publisher.commands, service.publisher.lossy);
    ghost var before := ServerView(service);
    ghost var cmds := CommandsFor(events);
    ghost var envelopes := Wrap(service.store.gameId, ids, cmds);
    for i := 0 to |events|
      invariant service.Valid()
      invariant service.store.Events() == HandleAll(before.log, cmds[..i])
      invariant Reached(old(service.publisher.commands), envelopes[..i],
                        service.publisher.commands, service.publisher.lossy)
      invariant MayConnectAll(before, events[..i], ServerView(service))
      invariant !service.broadcaster.faulty ==>
                  ServerView(service) == Connections(before, events[..i])
    {
      ghost var view, commands := ServerView(service), service.publisher.commands;
      HandleConnection(service, events[i], ids[i]);
      MayConnectSnoc(before, events[..i], view, events[i], ServerView(service));
      ReachedMore(old(service.publisher.commands), envelopes[..i], commands, [envelopes[i]],
                  service.publisher.commands, service.publisher.lossy);
      assert envelopes[..i + 1] == envelopes[..i] + [envelopes[i]];
      assert events[..i + 1] == events[..i] + [events[i]];
      assert cmds[..i + 1] == cmds[..i] + [cmds[i]];
      HandleAllSnoc(before.log, cmds[..i], cmds[i]);
      assert events[..i + 1][..i] == events[..i];
    }
    assert cmds[..|events|] == cmds && events[..|events|] == events && envelopes[..|events|] == envelopes;
  }

  /** The envelopes that the messages of the clients are wrapped in, if they decode. */
  function Enveloped(gameId: GameId, ids: seq<CommandId>, messages: seq<Option<GameCommand>>): seq<Option<CommandEnvelope>>
    requires |ids| == |messages|
  {
    seq(|messages|, i requires 0 <= i < |messages| =>
      if messages[i].Some? then Some(CommandEnvelope(ids[i], gameId, messages[i].value)) else None)
  }

  method DrainClientCommands(service: GameService, messages: seq<Option<GameCommand>>, ids: seq<CommandId>)
    requires service.Valid() && |ids| == |messages|
    modifies service.store, service.publisher, service.broadcaster
    ensures service.Valid()
    ensures service.store.Events() == HandleAll(old(service.store.Events()), Decoded(messages))
    ensures Reached(old(service.publisher.commands), Decoded(Enveloped(service.store.gameId, ids, messages)),
                    service.publisher.commands, service.publisher.lossy)
    ensures MayRun(old(ServerView(service)), Decoded(messages), ServerView(service))
    ensures !service.broadcaster.faulty ==>
              ServerView(service) == Broadcasts(old(ServerView(service)), Decoded(messages))
  {
    DecodedNone<GameCommand>();
    DecodedNone<CommandEnvelope>();
    hide Producible, Handle, HandleAll, Broadcasting, Broadcasts, Returns, Reached, MayHandle, Decoded;
    ghost var before, log, was := ServerView(service), service.store.Events(), service.publisher.commands;
    ghost var all := Enveloped(service.store.gameId, ids, messages);
    HandleAllNone(log);
    BroadcastsNone(before);
    ReachedNothing(was, service.publisher.lossy);
    for i := 0 to |messages|
      invariant service.Valid()
      invariant service.store.Events() == HandleAll(log, Decoded(messages[..i]))
      invariant Reached(was, Decoded(all[..i]), service.publisher.commands, service.publisher.lossy)
      invariant MayRun(before, Decoded(messages[..i]), ServerView(service))
      invariant !service.broadcaster.faulty ==> ServerView(service) == Broadcasts(before, Decoded(messages[..i]))
    {
      assert messages[..i + 1] == messages[..i] + [messages[i]] && all[..i + 1] == all[..i] + [all[i]];
      DecodedSnoc(messages[..i], messages[i]);
      DecodedSnoc(all[..i], all[i]);
      if messages[i].Some? {
        ghost var view, commands := ServerView(service), service.publisher.commands;
        var env := CommandEnvelope(ids[i], service.store.gameId, messages[i].value);
        service.Publish(Command(env));
        var r := HandleOne(service, env);
        ReachedMore(was, Decoded(all[..i]), commands, [env], service.publisher.commands, service.publisher.lossy);
        MayRunSnoc(before, Decoded(messages[..i]), view, env.command, ServerView(service));
        BroadcastsSnoc(before, Decoded(messages[..i]), messages[i].value);
        HandleAllSnoc(log, Decoded(messages[..i]), messages[i].value);
      }
    }
    assert messages[..|messages|] == messages && all[..|messages|] == all;
  }

  // ── Commands from the broker ──

  datatype BrokerCommand = BrokerCommand(envelope: CommandEnvelope, ack: AckHandle)

  /** Only success and the wrong game are acknowledged: the refusals of the decider have
      lost the type that the loop looks for. */
  predicate Acknowledges(r: HandleResult) {
    r.Done? || r.WrongGame?
  }

  /** Told from the command and the log: the wrong game is acknowledged, and a command for
      this game exactly if it is accepted and its events are broadcast. */
  lemma {:induction false} AcknowledgesIff(gameId: GameId, log: Log, env: CommandEnvelope, r: HandleResult)
    requires Returns(gameId, log, env, r)
    ensures Acknowledges(r) <==> env.gameId != gameId || (Accepted(log, env.command) && !r.BroadcastFailed?)
  {
  }

  function HandleEnvelopes(gameId: GameId, log: Log, queue: seq<CommandEnvelope>): Log {
    if queue == [] then log
    else HandleEnvelope(gameId, HandleEnvelopes(gameId, log, queue[..|queue| - 1]), queue[|queue| - 1])
  }

  function EnvelopesOf(queue: seq<BrokerCommand>): seq<CommandEnvelope> {
    seq(|queue|, i requires 0 <= i < |queue| => queue[i].envelope)
  }

  method HandleBrokerCommand(service: GameService, cmd: BrokerCommand) returns (r: HandleResult)
    requires service.Valid() && cmd.ack.signal == Pending
    modifies service.store, service.publisher, service.broadcaster, cmd.ack
    ensures service.Valid()
    ensures Returns(service.store.gameId, old(service.store.Events()), cmd.envelope, r)
    ensures service.store.Events() ==
            HandleEnvelope(service.store.gameId, old(service.store.Events()), cmd.envelope)
    ensures service.publisher.commands == old(service.publisher.commands)
    ensures r.BroadcastFailed? ==> service.broadcaster.faulty
    ensures cmd.ack.signal == if Acknowledges(r) then Acked else Dropped
    ensures cmd.ack.signal == Acked <==>
            cmd.envelope.gameId != service.store.gameId ||
            (Accepted(old(service.store.Events()), cmd.envelope.command) && !r.BroadcastFailed?)
    ensures if cmd.envelope.gameId == service.store.gameId then
              MayHandle(old(ServerView(service)), cmd.envelope.command, ServerView(service))
            else ServerView(service) == old(ServerView(service))
    ensures !service.broadcaster.faulty ==>
              ServerView(service) ==
              if cmd.envelope.gameId == service.store.gameId then
                Broadcasting(old(ServerView(service)), cmd.envelope.command)
              else old(ServerView(service))
  {
    r := HandleOne(service, cmd.envelope);
    AcknowledgesIff(service.store.gameId, old(service.store.Events()), cmd.envelope, r);
    if Acknowledges(r) {
      cmd.ack.Ack();
    } else {
      cmd.ack.Drop();
    }
  }

  /** Each command was judged against the log that its predecessors left. */
  ghost predicate Judged(gameId: GameId, log: Log, queue: seq<CommandEnvelope>, results: seq<HandleResult>)
    requires |results| <= |queue|
  {
    forall i :: 0 <= i < |results| ==> Returns(gameId, HandleEnvelopes(gameId, log, queue[..i]), queue[i], results[i])
  }

  lemma {:induction false} JudgedNone(gameId: GameId, log: Log, queue: seq<CommandEnvelope>)
    ensures Judged(gameId, log, queue, [])
  {
  }

  lemma {:induction false} JudgedSnoc(gameId: GameId, log: Log, queue: seq<CommandEnvelope>, results: seq<HandleResult>, r: HandleResult)
    requires |results| < |queue| && Judged(gameId, log, queue, results)
    requires Returns(gameId, HandleEnvelopes(gameId, log, queue[..|results|]), queue[|results|], r)
    ensures Judged(gameId, log, queue, results + [r])
  {
  }

  lemma {:induction false} JudgedMeans(gameId: GameId, log: Log, queue: seq<CommandEnvelope>, results: seq<HandleResult>, i: nat)
    requires i < |results| <= |queue| && Judged(gameId, log, queue, results)
    ensures Acknowledges(results[i]) <==>
            queue[i].gameId != gameId ||
            (Accepted(HandleAll(log, Ours(gameId, queue[..i])), queue[i].command) && !results[i].BroadcastFailed?)
  {
    OnlyOursCount(gameId, log, queue[..i]);
    AcknowledgesIff(gameId, HandleEnvelopes(gameId, log, queue[..i]), queue[i], results[i]);
  }

  /** Each acknowledgement was sent or dropped by the result of its own command. */
  ghost predicate Signalled(queue: seq<BrokerCommand>, results: seq<HandleResult>)
    requires |results| <= |queue|
    reads set i | 0 <= i < |queue| :: queue[i].ack
  {
    forall i :: 0 <= i < |results| ==> queue[i].ack.signal == if Acknowledges(results[i]) then Acked else Dropped
  }

  /** The commands of a queue that are meant for this game. */
  function Ours(gameId: GameId, queue: seq<CommandEnvelope>): seq<GameCommand> {
    if queue == [] then []
    else
      var n := |queue| - 1;
      Ours(gameId, queue[..n]) + if queue[n].gameId == gameId then [queue[n].command] else []
  }

  lemma {:induction false} NothingQueued(gameId: GameId, log: Log)
    ensures HandleEnvelopes(gameId, log, []) == log && Ours(gameId, []) == []
  {
  }

  lemma {:induction false} HandleEnvelopesSnoc(gameId: GameId, log: Log, queue: seq<CommandEnvelope>, n: nat)
    requires n < |queue|
    ensures HandleEnvelopes(gameId, log, queue[..n + 1]) ==
            HandleEnvelope(gameId, HandleEnvelopes(gameId, log, queue[..n]), queue[n])
  {
    assert queue[..n + 1][..n] == queue[..n];
  }

  lemma {:induction false} OursSnoc(gameId: GameId, queue: seq<CommandEnvelope>, n: nat)
    requires n < |queue|
    ensures Ours(gameId, queue[..n + 1]) ==
            if queue[n].gameId == gameId then Ours(gameId, queue[..n]) + [queue[n].command] else Ours(gameId, queue[..n])
  {
    assert queue[..n + 1][..n] == queue[..n];
    assert Ours(gameId, queue[..n]) + [] == Ours(gameId, queue[..n]);
  }

  lemma {:induction false} SignalsFollow(gameId: GameId, log: Log, queue: seq<BrokerCommand>, results: seq<HandleResult>)
    requires |results| == |queue|
    requires Judged(gameId, log, EnvelopesOf(queue), results) && Signalled(queue, results)
    ensures forall i :: 0 <= i < |queue| ==>
              queue[i].ack.signal ==
              if queue[i].envelope.gameId != gameId ||
                 (Accepted(HandleAll(log, Ours(gameId, EnvelopesOf(queue)[..i])), queue[i].envelope.command) &&
                  !results[i].BroadcastFailed?)
              then Acked else Dropped
  {
    hide Judged, Acknowledges, Accepted, HandleAll, Ours;
    forall i | 0 <= i < |queue| {
      JudgedMeans(gameId, log, EnvelopesOf(queue), results, i);
    }
  }

  /** Handles the queue in order. */
  method DrainBrokerCommands(service: GameService, queue: seq<BrokerCommand>) returns (results: seq<HandleResult>)
    requires service.Valid()
    requires forall i :: 0 <= i < |queue| ==> queue[i].ack.signal == Pending
    requires forall i, j :: 0 <= i < j < |queue| ==> queue[i].ack != queue[j].ack
    modifies service.store, service.publisher, service.broadcaster
    modifies set i | 0 <= i < |queue| :: queue[i].ack
    ensures service.Valid()
    ensures service.store.Events() ==
            HandleEnvelopes(service.store.gameId, old(service.store.Events()), EnvelopesOf(queue))
    ensures service.publisher.commands == old(service.publisher.commands)
    ensures |results| == |queue|
    ensures Judged(service.store.gameId, old(service.store.Events()), EnvelopesOf(queue), results)
    ensures Signalled(queue, results)
    ensures !service.broadcaster.faulty ==> forall r :: r in results ==> !r.BroadcastFailed?
    // told from the commands alone: each is decided on the log that its predecessors left
    ensures forall i :: 0 <= i < |queue| ==>
              queue[i].ack.signal ==
              if queue[i].envelope.gameId != service.store.gameId ||
                 (Accepted(HandleAll(old(service.store.Events()), Ours(service.store.gameId, EnvelopesOf(queue)[..i])),
                           queue[i].envelope.command) && !results[i].BroadcastFailed?)
              then Acked else Dropped
    ensures MayRun(old(ServerView(service)), Ours(service.store.gameId, EnvelopesOf(queue)), ServerView(service))
    ensures !service.broadcaster.faulty ==>
              ServerView(service) ==
              Broadcasts(old(ServerView(service)), Ours(service.store.gameId, EnvelopesOf(queue)))
  {
    hide Broadcasting, Broadcasts, Ours, HandleEnvelopes, Judged, Returns, HandleEnvelope, Acknowledges, Producible, MayHandle, MayRun, HandleAll,
      Accepted;
    JudgedNone(service.store.gameId, service.store.Events(), EnvelopesOf(queue));
    ghost var log := service.store.Events();
    ghost var before := ServerView(service);
    ghost var gameId := service.store.gameId;
    ghost var envelopes := EnvelopesOf(queue);
    NothingQueued(gameId, log);
    BroadcastsNone(before);
    MayRunNone(before);
    results := [];
    for n := 0 to |queue|
      invariant service.Valid() && |results| == n
      invariant service.store.Events() == HandleEnvelopes(gameId, log, envelopes[..n])
      invariant service.publisher.commands == old(service.publisher.commands)
      invariant Judged(gameId, log, envelopes, results) && Signalled(queue, results)
      invariant !service.broadcaster.faulty ==> forall r :: r in results ==> !r.BroadcastFailed?
      invariant forall i :: n <= i < |queue| ==> queue[i].ack.signal == Pending
      invariant MayRun(before, Ours(gameId, envelopes[..n]), ServerView(service))
      invariant !service.broadcaster.faulty ==> ServerView(service) == Broadcasts(before, Ours(gameId, envelopes[..n]))
    {
      label unhandled:
      ghost var view := ServerView(service);
      var r := HandleBrokerCommand(service, queue[n]);
      HandleEnvelopesSnoc(gameId, log, envelopes, n);
      JudgedSnoc(gameId, log, envelopes, results, r);
      OursSnoc(gameId, envelopes, n);
      BroadcastsSnoc(before, Ours(gameId, envelopes[..n]), envelopes[n].command);
      if envelopes[n].gameId == gameId {
        MayRunSnoc(before, Ours(gameId, envelopes[..n]), view, envelopes[n].command, ServerView(service));
      }
      forall i | 0 <= i < |queue| && i != n
        ensures queue[i].ack.signal == old@unhandled(queue[i].ack.signal)
      {
        assert queue[i].ack != queue[n].ack;
      }
      results := results + [r];
    }
    assert envelopes[..|queue|] == envelopes;
    SignalsFollow(gameId, log, queue, results);
  }

  /** Commands for other games leave no trace. */
  lemma {:induction false} OnlyOursCount(gameId: GameId, log: Log, queue: seq<CommandEnvelope>)
    ensures HandleEnvelopes(gameId, log, queue) == HandleAll(log, Ours(gameId, queue))
    decreases |queue|
  {
    if queue != [] {
      var n := |queue| - 1;
      OnlyOursCount(gameId, log, queue[..n]);
      HandleAllSnoc(log, Ours(gameId, queue[..n]), queue[n].command);
      assert Ours(gameId, queue[..n]) + [] == Ours(gameId, queue[..n]);
    }
  }

  /** One turn of the loop: connections, then client messages, then the broker queue. Its
      effect on the log is that of one run of commands; what it publishes are the commands
      of the connections and of the clients; and it answers each queued command. */
  method Tick(service: GameService, events: seq<ServerEvent>, eventIds: seq<CommandId>,
              messages: seq<Option<GameCommand>>, messageIds: seq<CommandId>, queue: seq<BrokerCommand>)
    returns (results: seq<HandleResult>)
    requires service.Valid() && |eventIds| == |events| && |messageIds| == |messages|
    requires forall i :: 0 <= i < |queue| ==> queue[i].ack.signal == Pending
    requires forall i, j :: 0 <= i < j < |queue| ==> queue[i].ack != queue[j].ack
    modifies service.store, service.publisher, service.broadcaster
    modifies set i | 0 <= i < |queue| :: queue[i].ack
    ensures service.Valid()
    ensures service.store.Events() ==
            HandleAll(old(service.store.Events()),
                      CommandsFor(events) + Decoded(messages) + Ours(service.store.gameId, EnvelopesOf(queue)))
    ensures Reached(old(service.publisher.commands),
                    Wrap(service.store.gameId, eventIds, CommandsFor(events)) +
                      Decoded(Enveloped(service.store.gameId, messageIds, messages)),
                    service.publisher.commands, service.publisher.lossy)
    ensures |results| == |queue|
    ensures Judged(service.store.gameId, HandleAll(old(service.store.Events()), CommandsFor(events) + Decoded(messages)),
                   EnvelopesOf(queue), results)
    ensures Signalled(queue, results)
    ensures !service.broadcaster.faulty ==> forall r :: r in results ==> !r.BroadcastFailed?
    ensures forall i :: 0 <= i < |queue| ==>
              queue[i].ack.signal ==
              if queue[i].envelope.gameId != service.store.gameId ||
                 (Accepted(HandleAll(old(service.store.Events()),
                                     CommandsFor(events) + Decoded(messages) +
                                       Ours(service.store.gameId, EnvelopesOf(queue)[..i])),
                           queue[i].envelope.command) && !results[i].BroadcastFailed?)
              then Acked else Dropped
    ensures exists mid ::
              && MayConnectAll(old(ServerView(service)), events, mid)
              && MayRun(mid, Decoded(messages) + Ours(service.store.gameId, EnvelopesOf(queue)), ServerView(service))
    ensures !service.broadcaster.faulty ==>
              ServerView(service) ==
              Broadcasts(Connections(old(ServerView(service)), events),
                         Decoded(messages) + Ours(service.store.gameId, EnvelopesOf(queue)))
  {
    hide Handle, Producible, Broadcasting, Connection, Reached, MayRun, MayConnectAll, Judged, Decoded, Ours;
    ghost var log, was := service.store.Events(), service.publisher.commands;
    ghost var ours := Ours(service.store.gameId, EnvelopesOf(queue));
    BroadcastsAppend(Connections(ServerView(service), events), Decoded(messages), ours);
    HandleConnections(service, events, eventIds);
    ghost var connected, commands := ServerView(service), service.publisher.commands;
    DrainClientCommands(service, messages, messageIds);
    ReachedMore(was, Wrap(service.store.gameId, eventIds, CommandsFor(events)), commands,
                Decoded(Enveloped(service.store.gameId, messageIds, messages)),
                service.publisher.commands, service.publisher.lossy);
    HandleAllAppend(log, CommandsFor(events), Decoded(messages));
    OnlyOursCount(service.store.gameId, service.store.Events(), EnvelopesOf(queue));
    HandleAllAppend(log, CommandsFor(events) + Decoded(messages), ours);
    ghost var drained := ServerView(service);
    results := DrainBrokerCommands(service, queue);
    MayRunAppend(connected, Decoded(messages), drained, ours, ServerView(service));
    forall i | 0 <= i < |queue| {
      HandleAllAppend(log, CommandsFor(events) + Decoded(messages), Ours(service.store.gameId, EnvelopesOf(queue)[..i]));
    }
  }
}
