/** The client's copy of the game and its read model of the two players
    (client/src/main.rs, store/src/state.rs). */
module Client {
  import opened Types
  import opened BoardLogic
  import opened Rules
  import opened Decider
  import opened Refinement
  import opened LogLanguage
  import opened History
  import opened GameFacts
  import opened Replay
  import opened Replicas

  datatype PlayerPair = PlayerPair(x: PlayerId, xName: string, o: PlayerId, oName: string) {
    function OpponentOf(id: PlayerId): PlayerId {
      if x == id then o else x
    }

    function SymbolOf(id: PlayerId): Symbol {
      if x == id then X else O
    }

    function NameOf(id: PlayerId): Option<string> {
      if x == id then Some(xName) else if o == id then Some(oName) else None
    }
  }

  /** The pair is read off once exactly two joins have been received. */
  function PairOf(received: Log): Option<PlayerPair> {
    var joins := Joins(received);
    if |joins| == 2 then Some(PlayerPair(joins[0].0, joins[0].1, joins[1].0, joins[1].1)) else None
  }

  class Replica {
    /** Messages received and not yet drained; those that do not decode are None. */
    var inbox: seq<Option<Event>>
    var state: GameState
    var received: Log
    var pair: Option<PlayerPair>

    ghost predicate Valid()
      reads this
    {
      && state == Hydrate(received)
      && (pair.Some? ==> exists n :: 0 <= n <= |received| && pair == PairOf(received[..n]))
    }

    constructor ()
      ensures Valid() && received == [] && inbox == [] && pair == None
    {
      inbox, state, received, pair := [], DEFAULT_STATE, [], None;
    }

    method ReceiveServerEvents() returns (written: Log)
      requires Valid()
      modifies this
      ensures Valid() && inbox == [] && pair == old(pair)
      ensures written == Decoded(old(inbox))
      ensures received == old(received) + written
    {
      DecodedNone<Event>();
      hide PairOf, Hydrate, Evolve, Decoded;
      written := [];
      ghost var taken: seq<Option<Event>> := [];
      while inbox != []
        invariant taken + inbox == old(inbox) && written == Decoded(taken)
        invariant state == Hydrate(received) && pair == old(pair)
        invariant received == old(received) + written
        decreases |inbox|
      {
        var raw := inbox[0];
        inbox := inbox[1..];
        DecodedSnoc(taken, raw);
        taken := taken + [raw];
        if raw.Some? {
          HydrateAppend(received, [raw.value]);
          FoldOne(state, raw.value);
          state := Evolve(state, raw.value);
          received := received + [raw.value];
          written := written + [raw.value];
        }
      }
      assert taken == old(inbox);
      if pair.Some? {
        ghost var n :| 0 <= n <= |old(received)| && pair == PairOf(old(received)[..n]);
        assert received[..n] == old(received)[..n];
      }
    }

    method UpdatePair()
      requires Valid()
      modifies this`pair
      ensures Valid()
      ensures pair == if old(pair).Some? then old(pair) else PairOf(received)
    {
      if pair.Some? {
        return;
      }
      var joins := Joins(received);
      if |joins| == 2 {
        pair := Some(PlayerPair(joins[0].0, joins[0].1, joins[1].0, joins[1].1));
        assert received[..|received|] == received;
      }
    }
  }

  // ── The read model agrees with the write model ──

  lemma {:induction false} PairIsJoiners(log: Log)
    ensures PairOf(log).Some? <==> |Joiners(log)| == 2
    ensures PairOf(log).Some? ==> Joiners(log) == [PairOf(log).value.x, PairOf(log).value.o]
  {
    JoinsNameJoiners(log);
  }

  /** At a placement of a producible log: a player of the game places, and it is their turn. */
  lemma {:induction false} PlacementTurn(log: Log, i: nat) returns (pos: Position)
    requires Producible(log) && i < |log| && log[i].TilePlaced?
    ensures Hydrate(log[..i]) == StateOf(Playing(pos)) && pos.WellFormed()
    ensures log[i].player == pos.Player(pos.turn)
    ensures Joiners(log) == [pos.x, pos.o]
  {
    hide HasLine, MidBatch;
    PrefixForms(log, i);
    assert Producible(log[..i]) by {
      if !Producible(log[..i]) {
        var s := Hydrate(log[..i]);
        assert MidBatch(Hydrate(log[..i - 1]), log[i - 1], log[i], s);
        MidBatchEndsBatch(Hydrate(log[..i - 1]), log[i - 1], log[i], s);
      }
    }
    var g := ProducibleExplained(log[..i]);
    var whole := ProducibleExplained(log);
    assert log == log[..i] + log[i..];
    ParseAppend(START, log[..i], log[i..]);
    assert ReadBatch(g, log[i..]).Batch?;
    pos := g.pos;
    CollectAppend(JoinerIn, log[..i], log[i..]);
  }

  lemma {:induction false} MidBatchEndsBatch(before: GameState, first: Event, second: Event, s: GameState)
    requires MidBatch(before, first, second, s)
    ensures !second.TilePlaced?
  {
  }

  lemma {:induction false} JoinersOfPrefix(log: Log, n: nat)
    requires n <= |log|
    ensures Joiners(log[..n]) <= Joiners(log) && Joins(log[..n]) <= Joins(log)
  {
    assert log == log[..n] + log[n..];
    CollectAppend(JoinerIn, log[..n], log[n..]);
    CollectAppend(JoinIn, log[..n], log[n..]);
  }

  lemma {:induction false} JoinIsEvent(log: Log, p: PlayerId, name: string)
    ensures (p, name) in Joins(log) <==> PlayerJoined(p, name) in log
  {
    InCollect(JoinIn, log, (p, name));
    if PlayerJoined(p, name) in log {
      assert (p, name) in JoinIn(PlayerJoined(p, name));
    }
  }

  /** The lookups of a pair of different players, for any id at all: only its own players
      have a name, each of them has a symbol of its own, and the other for opponent. */
  lemma {:induction false} PairLookups(pair: PlayerPair, id: PlayerId)
    requires pair.x != pair.o
    ensures pair.NameOf(id).Some? <==> id == pair.x || id == pair.o
    ensures pair.NameOf(pair.x) == Some(pair.xName) && pair.NameOf(pair.o) == Some(pair.oName)
    ensures pair.SymbolOf(pair.x) == X && pair.SymbolOf(pair.o) == O
    ensures pair.OpponentOf(id) == pair.x || id == pair.x
    ensures pair.OpponentOf(pair.x) == pair.o
    ensures id == pair.x || id == pair.o ==>
              && pair.OpponentOf(pair.OpponentOf(id)) == id
              && pair.SymbolOf(pair.OpponentOf(id)) == pair.SymbolOf(id).Other()
  {
  }

  /** A pair read off any prefix of a producible log has the seats of the write model, from
      that prefix on, and the names of the log's two joins. */
  lemma {:induction false} PairIsSeats(log: Log, n: nat, m: nat)
    requires Producible(log) && n <= m <= |log| && PairOf(log[..n]).Some?
    ensures
      var pair := PairOf(log[..n]).value;
      && Hydrate(log[..m]).playerX == pair.x && Hydrate(log[..m]).playerO == pair.o
      && pair.x != pair.o
      && Joins(log) == [(pair.x, pair.xName), (pair.o, pair.oName)]
      && PairOf(log) == Some(pair)
      && PlayerJoined(pair.x, pair.xName) in log[..n] && PlayerJoined(pair.o, pair.oName) in log[..n]
  {
    hide HasLine, SeatAll;
    var g := ProducibleExplained(log);
    var pair := PairOf(log[..n]).value;
    PairIsJoiners(log[..n]);
    assert log[..m][..n] == log[..n];
    JoinersOfPrefix(log[..m], n);
    JoinersOfPrefix(log, m);
    JoinsNameJoiners(log);
    assert Joiners(log[..m]) == [pair.x, pair.o];
    JoinersAreSomebody(log);
    assert pair.x in Joiners(log);
    JoinIsEvent(log[..n], pair.x, pair.xName);
    JoinIsEvent(log[..n], pair.o, pair.oName);
    FoldSeats(DEFAULT_STATE, log[..m]);
    SeatBoth(NOBODY, NOBODY, pair.x, pair.o);
  }

  /** At any placement, the symbol of a pair read off any prefix is the one on the board, and
      its opponent is the one whose turn comes next. */
  lemma {:induction false} ReadModelAgrees(log: Log, n: nat, i: nat)
    requires Producible(log) && n <= |log| && PairOf(log[..n]).Some?
    requires i < |log| && log[i].TilePlaced?
    ensures
      var pair := PairOf(log[..n]).value;
      var before, after := Hydrate(log[..i]), Hydrate(log[..i + 1]);
      && pair.x == before.playerX && pair.o == before.playerO && pair.x != pair.o
      && after.board[log[i].at] == Occupied(pair.SymbolOf(log[i].player))
      && before.active == log[i].player
      && after.active == pair.OpponentOf(log[i].player)
      && pair.NameOf(log[i].player).Some?
      && (log[i].player, pair.NameOf(log[i].player).value) in Joins(log)
  {
    hide PairOf, Collect;
    var pos := PlacementTurn(log, i);
    PairIsSeats(log, n, |log|);
    JoinsNameJoiners(log);
    assert Joiners(log)[0] == PairOf(log[..n]).value.x && Joiners(log)[1] == PairOf(log[..n]).value.o;
    assert log[..i + 1] == log[..i] + [log[i]];
    HydrateAppend(log[..i], [log[i]]);
    FoldOne(Hydrate(log[..i]), log[i]);
  }

  // ── The read model under a late catch-up ──

  ghost predicate NamesSeats(pair: PlayerPair, log: Log) {
    Joiners(log) == [pair.x, pair.o]
  }

  /** Whatever has been drained of a stream when the pair is read, it names the seats. */
  ghost predicate PairNeverWrong(stream: Log, log: Log) {
    forall n :: 0 <= n <= |stream| && PairOf(stream[..n]).Some? ==> NamesSeats(PairOf(stream[..n]).value, log)
  }

  lemma {:induction false} SeatedJoiners(log: Log)
    requires Producible(log)
    ensures |Joiners(log)| <= 2
    ensures |Joiners(log)| == 2 ==> Joiners(log)[0] != Joiners(log)[1]
  {
    hide HasLine;
    var g := ProducibleExplained(log);
  }

  lemma {:induction false} PrefixWithJoins(log: Log, count: nat) returns (n: nat)
    requires count <= |Joiners(log)|
    ensures n <= |log| && Joiners(log[..n]) == Joiners(log)[..count]
    decreases |log|
  {
    if count == |Joiners(log)| {
      n := |log|;
      assert log[..n] == log;
    } else {
      var k := |log| - 1;
      CollectAppend(JoinerIn, log[..k], [log[k]]);
      CollectOne(JoinerIn, log[k]);
      assert log == log[..k] + [log[k]];
      n := PrefixWithJoins(log[..k], count);
      assert log[..k][..n] == log[..n];
    }
  }

  lemma {:induction false} SegmentJoiners(log: Log, k: nat, m: nat)
    requires k <= m <= |log|
    ensures Joiners(log) == Joiners(log[..k]) + Joiners(log[k..m]) + Joiners(log[m..])
    ensures Joiners(log[k..m] + log) == Joiners(log[k..m]) + Joiners(log)
  {
    assert log == log[..k] + log[k..m] + log[m..];
    CollectAppend(JoinerIn, log[..k] + log[k..m], log[m..]);
    CollectAppend(JoinerIn, log[..k], log[k..m]);
    CollectAppend(JoinerIn, log[k..m], log);
  }

  /** A client that is sent `log[k..m]` before its catch-up and then the log never reads a
      wrong pair, however its messages are drained, exactly when that segment does not hold
      exactly one join. */
  lemma {:induction false} PairNeverWrongIff(log: Log, k: nat, m: nat)
    requires Producible(log) && k <= m <= |log|
    ensures PairNeverWrong(log[k..m] + log, log) <==> |Joiners(log[k..m])| != 1
  {
    hide Collect, PairOf;
    var d, stream := log[k..m], log[k..m] + log;
    SegmentJoiners(log, k, m);
    SeatedJoiners(log);
    if |Joiners(d)| == 1 {
      var n := PrefixWithJoins(stream, 2);
      PairIsJoiners(stream[..n]);
      assert Joiners(stream[..n])[1] == Joiners(log)[0];
    } else {
      forall n | 0 <= n <= |stream| && PairOf(stream[..n]).Some?
        ensures NamesSeats(PairOf(stream[..n]).value, log)
      {
        PairIsJoiners(stream[..n]);
        JoinersOfPrefix(stream, n);
        FirstTwo(Joiners(log[..k]), Joiners(d), Joiners(log[m..]), Joiners(log), Joiners(stream[..n]));
      }
    }
  }

  lemma {:induction false} FirstTwo(a: seq<PlayerId>, d: seq<PlayerId>, b: seq<PlayerId>, all: seq<PlayerId>, p: seq<PlayerId>)
    requires all == a + d + b && |all| <= 2 && |d| != 1
    requires p <= d + all && |p| == 2
    ensures p == all
  {
    if |d| == 0 {
      assert d + all == all;
    } else {
      assert a == [] && b == [] && all == d;
      assert p == (d + all)[..2] == d;
    }
  }

  // ── The clients of a run ──

  /** The client of any run, once it is caught up. */
  lemma {:induction false} ClientPairNeverWrongIff(steps: seq<Step>, c: ClientId)
    requires c in RunNet(steps).conns && RunNet(steps).conns[c].caught.Some?
    ensures
      var net := RunNet(steps);
      var conn := net.conns[c];
      && conn.since <= conn.caught.value <= |net.log|
      && (PairNeverWrong(conn.stream, net.log) <==> |Joiners(Early(net, c))| != 1)
  {
    RunKeepsInv(steps);
    var net := RunNet(steps);
    PairNeverWrongIff(net.log, net.conns[c].since, net.conns[c].caught.value);
  }

  /** The second of two connections taken up in one turn, after an earlier player has left:
      its pair has the players the wrong way round. */
  lemma {:induction false} LatePairIsSwapped(p: PlayerId, q: PlayerId, r: PlayerId)
    requires p != NOBODY && q != NOBODY && p != q && q != r && p != r
    ensures
      var net := RunNet(TwoConnections(p, q, r));
      && r in net.conns && |net.conns[r].stream| >= 3
      && PairOf(net.conns[r].stream[..3]) == Some(PlayerPair(q, "q", p, "p"))
      && Joiners(net.log) == [p, q]
  {
    TwoConnectionsNet(p, q, r);
    hide RunNet, Collect, Hydrate, Handle;
    ReplicaAgreesIff(TwoConnections(p, q, r), r);
    var net := RunNet(TwoConnections(p, q, r));
    var early: Log := [PlayerJoined(q, "q"), GameStarted(p)];
    assert Early(net, r) == early;
    assert net.conns[r].stream[..3] == early + [net.log[0]];
    SwappedJoins(p, q);
  }

  lemma {:induction false} SwappedJoins(p: PlayerId, q: PlayerId)
    ensures
      var early: Log := [PlayerJoined(q, "q"), GameStarted(p)];
      PairOf(early + [PlayerJoined(p, "p")]) == Some(PlayerPair(q, "q", p, "p"))
    ensures Joiners([PlayerJoined(p, "p"), PlayerLeft(p), PlayerJoined(q, "q"), GameStarted(p)]) == [p, q]
  {
    hide Collect;
    var early: Log := [PlayerJoined(q, "q"), GameStarted(p)];
    CollectAppend(JoinIn, early, [PlayerJoined(p, "p")]);
    CollectTwo(JoinIn, early[0], early[1]);
    CollectOne(JoinIn, PlayerJoined(p, "p"));
    var first: Log := [PlayerJoined(p, "p"), PlayerLeft(p)];
    var second: Log := [PlayerJoined(q, "q"), GameStarted(p)];
    CollectAppend(JoinerIn, first, second);
    CollectTwo(JoinerIn, first[0], first[1]);
    CollectTwo(JoinerIn, second[0], second[1]);
    assert first + second == [PlayerJoined(p, "p"), PlayerLeft(p), PlayerJoined(q, "q"), GameStarted(p)];
  }
}
