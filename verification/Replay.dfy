/** A client that is caught up late folds some events twice: first those it was sent while
    connected but not yet caught up, then the whole log. When is that harmless? */
module Replay {
  import opened Types
  import opened BoardLogic
  import opened Rules
  import opened Decider
  import opened Refinement
  import opened LogLanguage
  import opened History
  import opened GameFacts

  // ── What a fold depends on ──

  /** The two seats after seating `joiners` in turn: the first fills an empty X seat, and
      every later one takes the O seat. */
  function SeatAll(x: PlayerId, o: PlayerId, joiners: seq<PlayerId>): (PlayerId, PlayerId)
    decreases |joiners|
  {
    if joiners == [] then (x, o)
    else if x == NOBODY then SeatAll(joiners[0], o, joiners[1..])
    else SeatAll(x, joiners[0], joiners[1..])
  }

  lemma {:induction false} FoldSeats(s: GameState, log: Log)
    ensures (Fold(s, log).playerX, Fold(s, log).playerO) == SeatAll(s.playerX, s.playerO, Joiners(log))
    decreases |log|
  {
    if log != [] {
      FoldSeats(Evolve(s, log[0]), log[1..]);
      if log[0].PlayerJoined? {
        assert ([log[0].player] + Joiners(log[1..]))[1..] == Joiners(log[1..]);
      } else {
        assert [] + Joiners(log[1..]) == Joiners(log[1..]);
      }
    }
  }

  lemma {:induction false} SeatAllKeepsX(x: PlayerId, o: PlayerId, joiners: seq<PlayerId>)
    requires NOBODY !in joiners
    ensures SeatAll(x, o, joiners).0 == if x == NOBODY && joiners != [] then joiners[0] else x
    decreases |joiners|
  {
    if joiners != [] {
      SeatAllKeepsX(if x == NOBODY then joiners[0] else x, if x == NOBODY then o else joiners[0], joiners[1..]);
    }
  }

  lemma {:induction false} FoldTouchesPlacedCells(s: GameState, log: Log, c: nat)
    requires c < 9 && c !in Placements(log)
    ensures Fold(s, log).board[c] == s.board[c]
    decreases |log|
  {
    if log != [] {
      assert Placements(log) == CellIn(log[0]) + Placements(log[1..]);
      FoldTouchesPlacedCells(Evolve(s, log[0]), log[1..], c);
    }
  }

  lemma {:induction false} InCollect<T>(pick: GameEvent -> seq<T>, log: seq<GameEvent>, v: T)
    ensures v in Collect(pick, log) <==> exists e :: e in log && v in pick(e)
  {
    if log != [] {
      InCollect(pick, log[1..], v);
      assert log == [log[0]] + log[1..];
    }
  }

  /** Two states that differ only in cells still to be placed fold to the same state. */
  lemma {:induction false} FoldForgetsBoard(s: GameState, t: GameState, log: Log)
    requires t == s.(board := t.board)
    requires forall c: nat :: c < 9 && c !in Placements(log) ==> s.board[c] == t.board[c]
    ensures Fold(s, log) == Fold(t, log)
    decreases |log|
  {
    if log == [] {
      assert s.board == t.board;
    } else {
      assert Placements(log) == CellIn(log[0]) + Placements(log[1..]);
      FoldForgetsBoard(Evolve(s, log[0]), Evolve(t, log[0]), log[1..]);
    }
  }

  // ── The start of a game in its log ──

  lemma {:induction false} StartIndex(g: Game, log: seq<GameEvent>) returns (k: nat)
    requires g.Waiting? && Parse(g, log).Some? && !Parse(g, log).value.Waiting?
    ensures k < |log| && log[k].GameStarted?
    ensures exists x, o :: Parse(g, log[..k + 1]) == Some(Playing(Opening(x, o)))
    decreases |log|
  {
    BatchSize(g, log);
    var batch := ReadBatch(g, log);
    if batch.next.Waiting? {
      hide ReadBatch;
      var tail := log[batch.size..];
      var j := StartIndex(batch.next, tail);
      k := batch.size + j;
      ReadBatchPrefix(g, log, k + 1);
      assert log[..k + 1][batch.size..] == tail[..j + 1];
    } else {
      k := 1;
      assert log[..2][2..] == [];
      assert Parse(batch.next, []) == Some(batch.next);
      ReadBatchPrefix(g, log, 2);
    }
  }

  lemma {:induction false} OpeningExplained(opening: seq<GameEvent>, x: PlayerId, o: PlayerId)
    requires Producible(opening) && Parse(START, opening) == Some(Playing(Opening(x, o)))
    ensures forall e :: e in opening ==> e.InRange()
    ensures x != NOBODY && x != o && Joiners(opening) == [x, o] && Starters(opening) == [x] && Placements(opening) == []
    ensures Hydrate(opening) == GameState(InGame, EMPTY_BOARD, x, x, o)
  {
    hide ReadBatch, Parse, HasLine;
    var g := ProducibleExplained(opening);
    assert BoardOf(g.pos) == EMPTY_BOARD;
  }

  /** The opening of a started game: its last event is the start, it has both joins and
      no placement, and it folds to the opening position. */
  lemma {:induction false} Split(log: Log) returns (k: nat, x: PlayerId, o: PlayerId)
    requires Producible(log) && Starters(log) != []
    ensures 0 < k <= |log| && log[k - 1] == GameStarted(x) && x != o
    ensures Joiners(log[..k]) == [x, o] && Joiners(log) == [x, o] && Placements(log[..k]) == []
    ensures Hydrate(log[..k]) == GameState(InGame, EMPTY_BOARD, x, x, o)
  {
    hide ReadBatch, Parse, HasLine;
    var g := ProducibleExplained(log);
    var j := StartIndex(START, log);
    k := j + 1;
    var opening := log[..k];
    ProducibleIffAccepted(opening);
    x, o :| Parse(START, opening) == Some(Playing(Opening(x, o)));
    OpeningExplained(opening, x, o);
    assert log == opening + log[k..];
    CollectAppend(JoinerIn, opening, log[k..]);
    assert opening[j] in opening;
    InCollect(StarterIn, opening, log[j].goesFirst);
  }

  // ── The theorem ──

  ghost predicate DrawnFrom(d: Log, log: Log) {
    forall e :: e in d ==> e in log
  }

  function FirstJoiner(log: seq<GameEvent>): Option<PlayerId> {
    if Joiners(log) == [] then None else Some(Joiners(log)[0])
  }

  lemma {:induction false} DrawnCollects<T>(pick: GameEvent -> seq<T>, d: Log, log: Log)
    requires DrawnFrom(d, log)
    ensures forall v :: v in Collect(pick, d) ==> v in Collect(pick, log)
  {
    forall v | v in Collect(pick, d) ensures v in Collect(pick, log) {
      InCollect(pick, d, v);
      InCollect(pick, log, v);
    }
  }

  lemma {:induction false} JoinersAreSomebody(log: Log)
    requires Producible(log)
    ensures NOBODY !in Joiners(log)
  {
    hide HasLine;
    var g := ProducibleExplained(log);
  }

  lemma {:induction false} SeatBoth(x0: PlayerId, o0: PlayerId, x: PlayerId, o: PlayerId)
    requires x != NOBODY && (x0 == NOBODY || x0 == x)
    ensures SeatAll(x0, o0, [x, o]) == (x, o)
  {
    assert [x, o][1..] == [o] && [o][1..] == [];
    assert SeatAll(x, x0, [o]) == (x, o) && SeatAll(x, o0, [o]) == (x, o);
  }

  /** From any state whose X seat is empty or already x's, an opening seats both players
      and starts the game; the board stays. */
  lemma {:induction false} OpeningFolds(s: GameState, opening: Log, x: PlayerId, o: PlayerId)
    requires opening != [] && opening[|opening| - 1] == GameStarted(x)
    requires Joiners(opening) == [x, o] && Placements(opening) == []
    requires x != NOBODY && (s.playerX == NOBODY || s.playerX == x)
    ensures Fold(s, opening) == GameState(InGame, s.board, x, x, o)
  {
    var k := |opening| - 1;
    assert opening == opening[..k] + [GameStarted(x)];
    FoldAppend(s, opening[..k], [GameStarted(x)]);
    FoldOne(Fold(s, opening[..k]), GameStarted(x));
    FoldSeats(s, opening);
    SeatBoth(s.playerX, s.playerO, x, o);
    forall c | 0 <= c < 9 ensures Fold(s, opening).board[c] == s.board[c] {
      FoldTouchesPlacedCells(s, opening, c);
    }
    assert Fold(s, opening).board == s.board;
  }

  /** The X seat after events drawn from a log: empty, or their first joiner's. */
  lemma {:induction false} DrawnSeat(d: Log, log: Log)
    requires Producible(log) && DrawnFrom(d, log)
    ensures NOBODY !in Joiners(d)
    ensures Hydrate(d).playerX == if Joiners(d) == [] then NOBODY else Joiners(d)[0]
  {
    JoinersAreSomebody(log);
    DrawnCollects(JoinerIn, d, log);
    FoldSeats(DEFAULT_STATE, d);
    SeatAllKeepsX(NOBODY, NOBODY, Joiners(d));
  }

  /** After a start that gives both folds the same seats, they agree. */
  lemma {:induction false} StartedAbsorbs(d: Log, log: Log)
    requires Producible(log) && DrawnFrom(d, log) && Starters(log) != []
    requires FirstJoiner(d).None? || FirstJoiner(d) == FirstJoiner(log)
    ensures Fold(Hydrate(d), log) == Hydrate(log)
  {
    var k, x, o := Split(log);
    var opening, rest := log[..k], log[k..];
    assert log == opening + rest;
    var s := Hydrate(d);
    DrawnSeat(d, log);
    JoinersAreSomebody(log);
    OpeningFolds(s, opening, x, o);
    CollectAppend(CellIn, opening, rest);
    DrawnCollects(CellIn, d, log);
    forall c: nat | c < 9 && c !in Placements(rest)
      ensures s.board[c] == Empty
    {
      FoldTouchesPlacedCells(DEFAULT_STATE, d, c);
    }
    FoldForgetsBoard(Fold(s, opening), Hydrate(opening), rest);
    FoldAppend(s, opening, rest);
    HydrateAppend(opening, rest);
  }

  lemma {:induction false} FoldLeaves(s: GameState, log: Log)
    requires forall e :: e in log ==> e.PlayerLeft?
    ensures Fold(s, log) == s
    decreases |log|
  {
    if log != [] {
      assert log[0] in log;
      FoldLeaves(s, log[1..]);
    }
  }

  lemma {:induction false} NotStartedMeans(log: Log)
    requires Producible(log) && Starters(log) == []
    ensures forall e :: e in log ==> e.PlayerLeft? || e.PlayerJoined?
    ensures |Joiners(log)| <= 1 && Hydrate(log).playerO == NOBODY
  {
    hide HasLine;
    var g := ProducibleExplained(log);
    CollectNothing(StarterIn, log);
    CollectNothing(CellIn, log);
    CollectNothing(EndingIn, log);
    forall e | e in log ensures e.PlayerLeft? || e.PlayerJoined? {
      assert StarterIn(e) == [] && CellIn(e) == [] && EndingIn(e) == [];
    }
  }

  /** Before the start, only leaves can be replayed: a repeated join takes the second seat. */
  lemma {:induction false} NotStartedAbsorbsIff(d: Log, log: Log)
    requires Producible(log) && DrawnFrom(d, log) && Starters(log) == []
    ensures Fold(Hydrate(d), log) == Hydrate(log) <==> Joiners(d) == []
  {
    NotStartedMeans(log);
    if Joiners(d) == [] {
      CollectNothing(JoinerIn, d);
      forall e | e in d ensures e.PlayerLeft? {
        assert JoinerIn(e) == [];
      }
      FoldLeaves(DEFAULT_STATE, d);
    } else {
      JoinersAreSomebody(log);
      DrawnCollects(JoinerIn, d, log);
      var x := Joiners(d)[0];
      assert x in Joiners(log);
      assert Joiners(log) == [x];
      DrawnSeat(d, log);
      FoldSeats(Hydrate(d), log);
      assert [x][1..] == [];
      assert Fold(Hydrate(d), log).playerO == x;
    }
  }

  /** Folding a producible log after any events drawn from it gives the state of the log
      alone exactly when those events contain no join, or the game has started and the
      first join among them is the first join of the log. */
  lemma {:induction false} ReplayAbsorbedIff(d: Log, log: Log)
    requires Producible(log) && DrawnFrom(d, log)
    ensures Hydrate(d + log) == Hydrate(log) <==>
            (FirstJoiner(d).None? || (Starters(log) != [] && FirstJoiner(d) == FirstJoiner(log)))
  {
    HydrateAppend(d, log);
    if Starters(log) == [] {
      NotStartedAbsorbsIff(d, log);
    } else if FirstJoiner(d).None? || FirstJoiner(d) == FirstJoiner(log) {
      StartedAbsorbs(d, log);
    } else {
      JoinersAreSomebody(log);
      DrawnSeat(d, log);
      FoldSeats(Hydrate(d), log);
      SeatAllKeepsX(Hydrate(d).playerX, Hydrate(d).playerO, Joiners(log));
      FoldSeats(DEFAULT_STATE, log);
      SeatAllKeepsX(NOBODY, NOBODY, Joiners(log));
    }
  }

  /** A repeated prefix is absorbed exactly from the start of the game on, or while it
      holds no join. */
  lemma {:induction false} PrefixAbsorbedIff(log: Log, n: nat)
    requires Producible(log) && n <= |log|
    ensures Hydrate(log[..n] + log) == Hydrate(log) <==>
            (Starters(log) != [] || Joiners(log[..n]) == [])
  {
    ReplayAbsorbedIff(log[..n], log);
    assert log == log[..n] + log[n..];
    CollectAppend(JoinerIn, log[..n], log[n..]);
  }
}
