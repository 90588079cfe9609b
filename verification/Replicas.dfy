/** The server and its clients: which events each client is sent, and when its copy of the
    game is the server's. */
module Replicas {
  import opened Types
  import opened Decider
  import opened History
  import opened GameLoop
  import opened Replay

  /** A connection, with two history variables: the length of the log when the network layer
      accepted it, and when the game loop caught it up. */
  datatype Conn = Conn(stream: Log, since: nat, caught: Option<nat>)

  datatype Net = Net(log: Log, conns: map<ClientId, Conn>)

  /** `Connect` and `Disconnect` happen inside the network layer; the game loop learns of
      them later in the same turn. */
  datatype Step =
    | Connect(client: ClientId)
    | CatchUp(client: ClientId)
    | Handled(cmd: GameCommand)
    | Disconnect(client: ClientId)

  function Deliver(conn: Conn, events: Log): Conn {
    conn.(stream := conn.stream + events)
  }

  function Next(n: Net, step: Step): Net {
    match step
    case Connect(c) =>
      if c in n.conns then n else n.(conns := n.conns[c := Conn([], |n.log|, None)])
    case CatchUp(c) =>
      if c in n.conns && n.conns[c].caught.None? then
        n.(conns := n.conns[c := Deliver(n.conns[c], n.log).(caught := Some(|n.log|))])
      else n
    case Handled(cmd) =>
      LogGrowsByHandle(n.log, cmd);
      var log := Handle(n.log, cmd);
      Net(log, map c | c in n.conns :: Deliver(n.conns[c], log[|n.log|..]))
    case Disconnect(c) => n.(conns := n.conns - {c})
  }

  function RunNet(steps: seq<Step>): Net {
    if steps == [] then Net([], map[])
    else Next(RunNet(steps[..|steps| - 1]), steps[|steps| - 1])
  }

  /** What a connected client has been sent: nothing but the log from its connection on;
      once caught up, that segment and then the whole log. */
  ghost predicate Fed(log: Log, conn: Conn) {
    conn.since <= |log| &&
    match conn.caught
    case None => conn.stream == log[conn.since..]
    case Some(m) => conn.since <= m <= |log| && conn.stream == log[conn.since..m] + log
  }

  ghost predicate Inv(n: Net) {
    && Producible(n.log)
    && forall c :: c in n.conns ==> Fed(n.log, n.conns[c])
  }

  lemma {:induction false} DeliverKeepsFed(log: Log, conn: Conn, events: Log)
    requires Fed(log, conn)
    ensures Fed(log + events, Deliver(conn, events))
  {
    match conn.caught {
      case None => assert (log + events)[conn.since..] == log[conn.since..] + events;
      case Some(m) =>
        assert (log + events)[conn.since..m] == log[conn.since..m];
        assert log[conn.since..m] + log + events == log[conn.since..m] + (log + events);
    }
  }

  lemma {:induction false} NextKeepsInv(n: Net, step: Step)
    requires Inv(n)
    ensures Inv(Next(n, step))
  {
    hide Handle, Producible;
    if step.Handled? {
      LogGrowsByHandle(n.log, step.cmd);
      ProducibleStep(n.log, step.cmd);
      var events := Handle(n.log, step.cmd)[|n.log|..];
      assert Handle(n.log, step.cmd) == n.log + events;
      forall c | c in n.conns ensures Fed(n.log + events, Deliver(n.conns[c], events)) {
        DeliverKeepsFed(n.log, n.conns[c], events);
      }
    }
  }

  /** Until a client is disconnected, its stream only grows, and it keeps its connection even
      if it were to connect again. */
  lemma {:induction false} StreamsOnlyGrow(n: Net, step: Step, c: ClientId)
    requires c in n.conns && step != Disconnect(c)
    ensures
      var after := Next(n, step);
      && c in after.conns && n.conns[c].stream <= after.conns[c].stream
      && after.conns[c].since == n.conns[c].since
      && (n.conns[c].caught.Some? ==> after.conns[c].caught == n.conns[c].caught)
      && (step.Connect? ==> after.conns[c] == n.conns[c])
  {
    hide Handle;
  }

  lemma {:induction false} RunKeepsInv(steps: seq<Step>)
    ensures Inv(RunNet(steps))
    decreases |steps|
  {
    if steps == [] {
      assert HandleAll([], []) == [];
    } else {
      RunKeepsInv(steps[..|steps| - 1]);
      NextKeepsInv(RunNet(steps[..|steps| - 1]), steps[|steps| - 1]);
    }
  }

  /** The segment a client was sent before its catch-up. */
  function Early(n: Net, c: ClientId): Log
    requires c in n.conns && n.conns[c].caught.Some? && n.conns[c].since <= n.conns[c].caught.value <= |n.log|
  {
    n.log[n.conns[c].since..n.conns[c].caught.value]
  }

  /** In every run, every caught-up client's stream is its early segment and then the log.
      It folds to the server's state exactly when that segment holds no join, or the game
      has started and the segment's first join is the log's. In particular it does when
      nothing was handled between the connection and the catch-up, and the stream is then
      the log itself. */
  lemma {:induction false} ReplicaAgreesIff(steps: seq<Step>, c: ClientId)
    requires c in RunNet(steps).conns && RunNet(steps).conns[c].caught.Some?
    ensures
      var net := RunNet(steps);
      var conn := net.conns[c];
      && conn.since <= conn.caught.value <= |net.log|
      && conn.stream == Early(net, c) + net.log
      && (conn.since == conn.caught.value ==> conn.stream == net.log)
      && (Hydrate(conn.stream) == Hydrate(net.log) <==>
            FirstJoiner(Early(net, c)).None? ||
            (Starters(net.log) != [] && FirstJoiner(Early(net, c)) == FirstJoiner(net.log)))
  {
    RunKeepsInv(steps);
    ReplayAbsorbedIff(Early(RunNet(steps), c), RunNet(steps).log);
  }

  /** Every connection is caught up before anything further is handled. */
  ghost predicate Prompt(steps: seq<Step>) {
    forall i :: 0 <= i < |steps| && steps[i].Handled? ==>
      forall c :: c in RunNet(steps[..i]).conns ==> RunNet(steps[..i]).conns[c].caught.Some?
  }

  ghost predicate InStep(n: Net) {
    forall c :: c in n.conns ==>
      match n.conns[c].caught
      case None => n.conns[c].since == |n.log| && n.conns[c].stream == []
      case Some(_) => n.conns[c].stream == n.log
  }

  /** Then every caught-up client has been sent the log, no more and no less, whether it
      connected before, during or after the game. */
  lemma {:induction false} PromptRunsStayInStep(steps: seq<Step>)
    requires Prompt(steps)
    ensures InStep(RunNet(steps))
    decreases |steps|
  {
    if steps != [] {
      hide Handle;
      var k := |steps| - 1;
      var init, before := steps[..k], RunNet(steps[..k]);
      forall i | 0 <= i < k && init[i].Handled?
        ensures forall c :: c in RunNet(init[..i]).conns ==> RunNet(init[..i]).conns[c].caught.Some?
      {
        assert init[..i] == steps[..i];
      }
      PromptRunsStayInStep(init);
      if steps[k].CatchUp? {
        assert [] + before.log == before.log;
      }
    }
  }

  function ViewOf(n: Net): (v: View)
    ensures v.log == n.log && v.streams.Keys == n.conns.Keys
    ensures forall c :: c in n.conns ==> v.streams[c] == n.conns[c].stream
  {
    View(n.log, map c | c in n.conns :: n.conns[c].stream)
  }

  /** The game loop's broadcasts are `Handled` steps, and its treatment of a connection is
      a catch-up and then a handled join. */
  lemma {:induction false} GameLoopTakesSteps(n: Net, cmd: GameCommand, c: ClientId, name: string)
    ensures Broadcasting(ViewOf(n), cmd) == ViewOf(Next(n, Handled(cmd)))
    ensures c in n.conns && n.conns[c].caught.None? ==>
              Connection(ViewOf(n), ClientConnected(c, name)) ==
              ViewOf(Next(Next(n, CatchUp(c)), Handled(JoinGame(c, name))))
    ensures Connection(ViewOf(n), ClientDisconnected(c)) == ViewOf(Next(n, Handled(LeaveGame(c))))
  {
    hide Handle;
    assert Broadcasting(ViewOf(n), cmd).streams == ViewOf(Next(n, Handled(cmd))).streams;
    assert Broadcasting(ViewOf(n), LeaveGame(c)).streams == ViewOf(Next(n, Handled(LeaveGame(c)))).streams;
    if c in n.conns && n.conns[c].caught.None? {
      assert CaughtUp(ViewOf(n), c).streams == ViewOf(Next(n, CatchUp(c))).streams;
    }
  }

  lemma {:induction false} JoinLeaveJoin(p: PlayerId, q: PlayerId)
    requires p != NOBODY && q != NOBODY && p != q
    ensures
      var l1: Log := [PlayerJoined(p, "p")];
      var l2: Log := l1 + [PlayerLeft(p)];
      var l3: Log := l2 + [PlayerJoined(q, "q"), GameStarted(p)];
      && Handle([], JoinGame(p, "p")) == l1
      && Handle(l1, LeaveGame(p)) == l2
      && Handle(l2, JoinGame(q, "q")) == l3
      && Hydrate(l3).stage == InGame
  {
    var l1: Log := [PlayerJoined(p, "p")];
    FoldOne(DEFAULT_STATE, l1[0]);
    HydrateAppend(l1, [PlayerLeft(p)]);
    FoldOne(Hydrate(l1), PlayerLeft(p));
    HydrateAppend(l1 + [PlayerLeft(p)], [PlayerJoined(q, "q"), GameStarted(p)]);
    FoldTwo(Hydrate(l1), PlayerJoined(q, "q"), GameStarted(p));
  }

  function TwoConnections(p: PlayerId, q: PlayerId, r: PlayerId): seq<Step> {
    [ Connect(p), CatchUp(p), Handled(JoinGame(p, "p")), Disconnect(p), Handled(LeaveGame(p)),
      Connect(q), Connect(r),
      CatchUp(q), Handled(JoinGame(q, "q")),
      CatchUp(r), Handled(JoinGame(r, "r")) ]
  }

  lemma {:induction false} RunNetStep(steps: seq<Step>, i: nat)
    requires i < |steps|
    ensures RunNet(steps[..i + 1]) == Next(RunNet(steps[..i]), steps[i])
  {
    assert steps[..i + 1][..i] == steps[..i];
  }

  lemma {:induction false} RunNetNone(steps: seq<Step>)
    ensures RunNet(steps[..0]) == Net([], map[])
  {
  }

  lemma {:induction false} TwoConnectionsNet(p: PlayerId, q: PlayerId, r: PlayerId)
    requires p != NOBODY && q != NOBODY && p != q && q != r && p != r
    ensures
      var net := RunNet(TwoConnections(p, q, r));
      && net.log == [PlayerJoined(p, "p"), PlayerLeft(p), PlayerJoined(q, "q"), GameStarted(p)]
      && q in net.conns && net.conns[q].since == 2 && net.conns[q].caught == Some(2)
      && r in net.conns && net.conns[r].since == 2 && net.conns[r].caught == Some(4)
  {
    hide Handle, RunNet;
    var steps := TwoConnections(p, q, r);
    RunNetNone(steps);
    var l1: Log := [PlayerJoined(p, "p")];
    var l2: Log := [PlayerJoined(p, "p"), PlayerLeft(p)];
    var l3: Log := [PlayerJoined(p, "p"), PlayerLeft(p), PlayerJoined(q, "q"), GameStarted(p)];
    JoinLeaveJoin(p, q);
    assert l1 + [PlayerLeft(p)] == l2 && l2 + [PlayerJoined(q, "q"), GameStarted(p)] == l3;
    for i := 0 to 11
      invariant RunNet(steps[..i]).log == if i < 3 then [] else if i < 5 then l1 else if i < 9 then l2 else l3
      invariant RunNet(steps[..i]).conns.Keys ==
                if i == 0 || i == 4 || i == 5 then {} else if i < 4 then {p} else if i == 6 then {q} else {q, r}
      invariant i >= 6 ==> var c := RunNet(steps[..i]).conns[q];
                c.since == 2 && c.caught == if i < 8 then None else Some(2)
      invariant i >= 7 ==> var c := RunNet(steps[..i]).conns[r];
                c.since == 2 && c.caught == if i < 10 then None else Some(4)
    {
      RunNetStep(steps, i);
      if i == 10 {
        RefusedInGame(l3, r);
      }
    }
    assert steps[..11] == steps;
  }

  lemma {:induction false} RefusedInGame(log: Log, r: PlayerId)
    requires Hydrate(log).stage == InGame
    ensures Handle(log, JoinGame(r, "r")) == log
  {
  }

  /** Two connections taken up in one turn, after an earlier player has left: the second is
      sent the first one's join before the history, and ends with the wrong players. */
  lemma {:induction false} LateCatchUpDiverges(p: PlayerId, q: PlayerId, r: PlayerId)
    requires p != NOBODY && q != NOBODY && p != q && q != r && p != r
    ensures
      var net := RunNet(TwoConnections(p, q, r));
      && q in net.conns && Hydrate(net.conns[q].stream) == Hydrate(net.log)
      && r in net.conns && Hydrate(net.conns[r].stream) != Hydrate(net.log)
  {
    var steps := TwoConnections(p, q, r);
    TwoConnectionsNet(p, q, r);
    hide RunNet;
    ReplicaAgreesIff(steps, q);
    ReplicaAgreesIff(steps, r);
    var log := RunNet(steps).log;
    var early := Early(RunNet(steps), r);
    assert early == [PlayerJoined(q, "q"), GameStarted(p)];
    assert Joiners(early)[0] == q && Joiners(log)[0] == p;
  }
}
