/** The replay harness (store/src/simulation.rs): a cursor into a log, with the state at
    the cursor kept up to date. */
module Simulation {
  import opened Types
  import opened BoardLogic
  import opened Decider
  import opened LogLanguage
  import opened Refinement
  import opened Rules
  import opened GameFacts

  class SimulationHarness {
    const log: Log
    var cursor: nat
    var state: GameState

    /** The kept state is always the recomputed one. */
    ghost predicate Valid()
      reads this
    {
      cursor <= |log| && state == Hydrate(log[..cursor])
    }

    constructor FromLog(log: Log)
      ensures Valid() && this.log == log && cursor == |log| && state == Hydrate(log)
    {
      this.log := log;
      cursor := |log|;
      state := Hydrate(log);
      new;
      assert log[..|log|] == log;
    }

    constructor FromLogUpTo(log: Log, n: nat)
      ensures Valid() && this.log == log && cursor == if n < |log| then n else |log|
    {
      var take := if n < |log| then n else |log|;
      this.log := log;
      cursor := take;
      state := Hydrate(log[..take]);
    }

    predicate IsExhausted()
      reads this
    {
      cursor >= |log|
    }

    method StepForward() returns (moved: bool)
      requires Valid()
      modifies this
      ensures Valid()
      ensures moved <==> old(cursor) < |log|
      ensures cursor == if moved then old(cursor) + 1 else old(cursor)
      ensures !moved ==> state == old(state)
    {
      if IsExhausted() {
        return false;
      }
      HydrateAppend(log[..cursor], [log[cursor]]);
      FoldOne(state, log[cursor]);
      assert log[..cursor + 1] == log[..cursor] + [log[cursor]];
      state := Evolve(state, log[cursor]);
      cursor := cursor + 1;
      return true;
    }

    method RewindTo(n: nat)
      requires Valid()
      modifies this
      ensures Valid() && cursor == if n < |log| then n else |log|
    {
      cursor := if n < |log| then n else |log|;
      state := Hydrate(log[..cursor]);
    }

    /** The events and the state that a command would lead to; the harness is only read. */
    method BranchWithCommand(cmd: GameCommand) returns (r: Result<(Log, GameState), TicTacTussleError>)
      requires Valid()
      ensures match Decide(Hydrate(log[..cursor]), cmd)
              case Failure(e) => r == Failure(e)
              case Success(events) =>
                r == Success((events, Hydrate(log[..cursor] + events))) &&
                Hydrate(log[..cursor] + events) == Hydrate(Handle(log[..cursor], cmd))
    {
      var decision := Decide(state, cmd);
      if decision.Failure? {
        return Failure(decision.error);
      }
      HydrateAppend(log[..cursor], decision.value);
      return Success((decision.value, Fold(state, decision.value)));
    }

    method RunToEnd() returns (final: GameState)
      requires Valid()
      modifies this
      ensures Valid() && cursor == |log|
      ensures final == state == Hydrate(log)
    {
      var more := StepForward();
      while more
        invariant Valid()
        invariant !more ==> cursor == |log|
        decreases |log| - cursor, more
      {
        more := StepForward();
      }
      assert log[..|log|] == log;
      return state;
    }
  }

  // ── Branching from a cut batch ──

  /** An accepted branch gives a log that a server could have exactly when the cursor stands
      between batches: no branch closes a batch that the cursor cuts. */
  lemma {:induction false} BranchIsProducibleIff(log: Log, n: nat, cmd: GameCommand)
    requires Producible(log) && n <= |log| && Decide(Hydrate(log[..n]), cmd).Success?
    ensures Producible(log[..n] + Decide(Hydrate(log[..n]), cmd).value) <==> Producible(log[..n])
  {
    hide ReadBatch, Decide;
    var events := Decide(Hydrate(log[..n]), cmd).value;
    if Producible(log[..n]) {
      ProducibleStep(log[..n], cmd);
    } else {
      ProducibleIffAccepted(log);
      ProducibleIffAccepted(log[..n]);
      var k := LastBoundary(START, log, n);
      var g := Parse(START, log[..k]).value;
      ReadBatchPrefix(g, log[k..], 2);
      assert log[k..][..2] == [log[k], log[n]];
      DecidedBatchShape(Hydrate(log[..n]), cmd);
      CutBatchStaysOpen(g, log[k], log[n], events);
      assert log[..n] + events == log[..k] + ([log[k]] + events);
      ParseAppend(START, log[..k], [log[k]] + events);
      ProducibleIffAccepted(log[..n] + events);
    }
  }

  lemma {:induction false} CutBatchStaysOpen(g: Game, first: GameEvent, second: GameEvent, events: seq<GameEvent>)
    requires ReadBatch(g, [first, second]).Batch? && ReadBatch(g, [first, second]).size == 2
    requires events != [] && !Closes(events[0])
    ensures Parse(g, [first] + events) == None
  {
    hide HasLine, Settle;
    assert ([first] + events)[1] == events[0];
    assert ReadBatch(g, [first] + events) == Malformed;
  }

  /** In any state at all: when a placement is announced as a win, the announced winner has
      a line and the opponent has none exactly if the opponent had none before it. */
  lemma {:induction false} WinClaimSoundIff(s: GameState, p: PlayerId, at: U64)
    requires Decide(s, PlaceTile(p, at)) == Success([TilePlaced(p, at), GameEnded(PlayerWon(p))])
    ensures
      at < 9 &&
      var mine := if s.playerX == p then X else O;
      var after := Evolve(s, TilePlaced(p, at)).board;
      (HasLine(CellsOf(after, mine)) && !HasLine(CellsOf(after, mine.Other())))
      <==> !HasLine(CellsOf(s.board, mine.Other()))
  {
    var mine := if s.playerX == p then X else O;
    var after := Evolve(s, TilePlaced(p, at)).board;
    assert CellsOf(after, mine.Other()) == CellsOf(s.board, mine.Other());
    WinningSymbolSound(after);
    var winner := WinningSymbol(after).value;
    assert winner == mine || winner == mine.Other();
  }

  lemma {:induction false} OldLineAnnouncesMover(s: GameState, p: PlayerId, c: U64)
    requires Decide(s, PlaceTile(p, c)).Success?
    requires HasLine(CellsOf(s.board, if s.playerX == s.active then O else X))
    ensures p == s.active
    ensures Decide(s, PlaceTile(p, c)) == Success([TilePlaced(p, c), GameEnded(PlayerWon(p))])
  {
    hide HasLine;
    var other := if s.playerX == p then O else X;
    var after := Evolve(s, TilePlaced(p, c)).board;
    assert CellsOf(after, other) == CellsOf(s.board, other);
    WinningSymbolSound(after);
  }

  lemma {:induction false} CutPlacementFolds(before: Log, pos: Position, at: U64)
    requires Tells(before, Playing(pos)) && at in CELLS && at !in pos.xs + pos.os
    ensures at < 9
    ensures Hydrate(before + [TilePlaced(pos.Player(pos.turn), at)]) == StateOf(Playing(pos.Mark(at)))
  {
    hide HasLine, StateOf;
    var place := TilePlaced(pos.Player(pos.turn), at);
    PlacementEvolves(pos, at);
    HydrateAppend(before, [place]);
    FoldOne(Hydrate(before), place);
  }

  /** That guard fails at every cut between a winning placement and the end of the game:
      whatever a branch places there, it announces the loser as the winner. */
  lemma {:induction false} CutWinIsMisnamed(before: Log, pos: Position, at: U64, p: PlayerId, c: U64)
    requires Tells(before, Playing(pos)) && at in CELLS && at !in pos.xs + pos.os
    requires HasLine(pos.Mark(at).Marks(pos.turn))
    ensures
      var won := pos.Player(pos.turn);
      var cut := Hydrate(before + [TilePlaced(won, at)]);
      && HasLine(CellsOf(cut.board, pos.turn))
      && (Decide(cut, PlaceTile(p, c)).Success? ==>
            && p != won
            && Decide(cut, PlaceTile(p, c)) == Success([TilePlaced(p, c), GameEnded(PlayerWon(p))]))
  {
    hide HasLine, Decide, Tells, BoardOf;
    var after := pos.Mark(at);
    CutPlacementFolds(before, pos, at);
    TellsWellFormed(before, Playing(pos));
    MarkKeepsWellFormed(pos, at);
    BoardShowsMarks(after);
    var cut := StateOf(Playing(after));
    if Decide(cut, PlaceTile(p, c)).Success? {
      OldLineAnnouncesMover(cut, p, c);
    }
  }

  lemma {:induction false} LineIsThere(cells: set<nat>)
    requires {0, 1, 2} <= cells
    ensures HasLine(cells)
  {
    LinesAreThePatterns();
    assert Row(0) <= cells;
  }

  function TopRowForX(): Log {
    [PlayerJoined(1, "x"), PlayerJoined(2, "o"), GameStarted(1)] +
    [TilePlaced(1, 0), TilePlaced(2, 3), TilePlaced(1, 1), TilePlaced(2, 4), TilePlaced(1, 2)]
  }

  lemma {:induction false} TopRowFolds()
    ensures Hydrate(TopRowForX()) == GameState(InGame,
      [Occupied(X), Occupied(X), Occupied(X), Occupied(O), Occupied(O), Empty, Empty, Empty, Empty], 2, 1, 2)
  {
    var start: Log := [PlayerJoined(1, "x"), PlayerJoined(2, "o"), GameStarted(1)];
    var moves: Log := [TilePlaced(1, 0), TilePlaced(2, 3), TilePlaced(1, 1), TilePlaced(2, 4), TilePlaced(1, 2)];
    HydrateAppend(start, moves);
    assert Hydrate(start) == GameState(InGame, EMPTY_BOARD, 1, 1, 2);
  }

  /** One such cut: X holds the top row, and O is announced the winner for placing at 8. */
  lemma {:induction false} CutBranchExample()
    ensures
      var cut := Hydrate(TopRowForX());
      && Decide(cut, PlaceTile(2, 8)) == Success([TilePlaced(2, 8), GameEnded(PlayerWon(2))])
      && CellsOf(cut.board, X) == {0, 1, 2} && CellsOf(cut.board, O) == {3, 4}
  {
    hide Hydrate, HasLine;
    TopRowFolds();
    var cut := Hydrate(TopRowForX());
    LineIsThere(CellsOf(cut.board, X));
    OldLineAnnouncesMover(cut, 2, 8);
  }
}
