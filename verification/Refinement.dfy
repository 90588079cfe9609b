/** The decider refines the rules: on the states of the rules it accepts the same
    commands, refuses the others for the same reason, and moves to the same state. */
module Refinement {
  import opened Types
  import opened BoardLogic
  import opened Rules
  import opened Decider

  function TileAt(pos: Position, c: nat): Tile {
    if c in pos.xs then Occupied(X) else if c in pos.os then Occupied(O) else Empty
  }

  function BoardOf(pos: Position): Board {
    seq(9, c requires 0 <= c < 9 => TileAt(pos, c))
  }

  /** The write-model state that stands for a game. It forgets why a game ended. */
  function StateOf(g: Game): GameState {
    match g
    case Waiting(seats) =>
      GameState(Lobby, EMPTY_BOARD, NOBODY, if seats == [] then NOBODY else seats[0], NOBODY)
    case Playing(pos) => GameState(InGame, BoardOf(pos), pos.Player(pos.turn), pos.x, pos.o)
    case Over(pos, _) => GameState(Ended, BoardOf(pos), pos.Player(pos.turn), pos.x, pos.o)
  }

  lemma {:induction false} BoardShowsMarks(pos: Position)
    requires pos.WellFormed()
    ensures CellsOf(BoardOf(pos), X) == pos.xs && CellsOf(BoardOf(pos), O) == pos.os
  {
    assert forall c :: c in pos.xs + pos.os ==> c in CELLS;
  }

  lemma {:induction false} MarkIsPlacement(pos: Position, at: U64)
    requires pos.WellFormed() && at in CELLS && at !in pos.xs + pos.os
    ensures at < 9
    ensures BoardOf(pos)[at := Occupied(pos.turn)] == BoardOf(pos.Mark(at))
  {
  }

  /** Once only the last mover can have a line, the two board tests decide the game. */
  lemma {:induction false} BoardTestsSettle(pos: Position)
    requires pos.WellFormed() && !HasLine(pos.Marks(pos.turn))
    ensures WinningSymbol(BoardOf(pos)).Some? <==> HasLine(pos.Marks(pos.turn.Other()))
    ensures IsFull(BoardOf(pos)) <==> pos.Full()
  {
    BoardShowsMarks(pos);
    ScanOrderIrrelevant(BoardOf(pos), pos.turn.Other(), WIN_PATTERNS);
    FullIffAllCellsTaken(BoardOf(pos));
  }

  lemma {:induction false} PlacementEvolves(pos: Position, at: U64)
    requires pos.WellFormed() && at in CELLS && at !in pos.xs + pos.os
    ensures at < 9 && BoardOf(pos)[at] == Empty
    ensures Evolve(StateOf(Playing(pos)), TilePlaced(pos.Player(pos.turn), at)) ==
            StateOf(Playing(pos.Mark(at)))
  {
    MarkIsPlacement(pos, at);
  }

  lemma {:induction false} PlacementSimulates(pos: Position, at: U64)
    requires Playing(pos).WellFormed() && at in CELLS && at !in pos.xs + pos.os
    ensures
      var mover := pos.Player(pos.turn);
      var next := Settle(pos.Mark(at));
      Decide(StateOf(Playing(pos)), PlaceTile(mover, at)) ==
      if next.Over? then Success([TilePlaced(mover, at), GameEnded(next.reason)])
      else Success([TilePlaced(mover, at)])
  {
    PlacementEvolves(pos, at);
    MarkKeepsWellFormed(pos, at);
    BoardTestsSettle(pos.Mark(at));
  }

  /** Forward simulation of one command, with equality of refusals. */
  ghost predicate Refines(g: Game, cmd: GameCommand) {
    match Play(g, cmd)
    case Failure(e) => Decide(StateOf(g), cmd) == Failure(e)
    case Success(next) =>
      && next.WellFormed()
      && Decide(StateOf(g), cmd).Success?
      && Fold(StateOf(g), Decide(StateOf(g), cmd).value) == StateOf(next)
  }

  lemma {:induction false} JoinRefines(g: Game, p: PlayerId, name: string)
    requires g.WellFormed()
    ensures Refines(g, JoinGame(p, name))
  {
    hide HasLine;
    if Play(g, JoinGame(p, name)).Success? {
      PlayKeepsWellFormed(g, JoinGame(p, name));
      if g.seats == [] {
        FoldOne(StateOf(g), PlayerJoined(p, name));
      } else {
        FoldTwo(StateOf(g), PlayerJoined(p, name), GameStarted(g.seats[0]));
        assert BoardOf(Opening(g.seats[0], p)) == EMPTY_BOARD;
      }
    }
  }

  lemma {:induction false} PlaceRefused(g: Game, p: PlayerId, at: U64)
    requires g.WellFormed() && Play(g, PlaceTile(p, at)).Failure?
    ensures Decide(StateOf(g), PlaceTile(p, at)) == Failure(Play(g, PlaceTile(p, at)).error)
  {
    hide HasLine, WinningSymbol, IsFull, Settle;
    if g.Playing? && at in CELLS {
      assert BoardOf(g.pos)[at] == TileAt(g.pos, at);
    }
  }

  lemma {:induction false} PlaceRefines(g: Game, p: PlayerId, at: U64)
    requires g.WellFormed()
    ensures Refines(g, PlaceTile(p, at))
  {
    hide HasLine, Decide;
    var cmd := PlaceTile(p, at);
    if Play(g, cmd).Failure? {
      PlaceRefused(g, p, at);
    } else {
      PlayKeepsWellFormed(g, cmd);
      PlacementEvolves(g.pos, at);
      PlacementSimulates(g.pos, at);
      var next := Settle(g.pos.Mark(at));
      if next.Over? {
        FoldTwo(StateOf(g), TilePlaced(p, at), GameEnded(next.reason));
      } else {
        FoldOne(StateOf(g), TilePlaced(p, at));
      }
    }
  }

  lemma {:induction false} LeaveRefines(g: Game, p: PlayerId)
    requires g.WellFormed()
    ensures Refines(g, LeaveGame(p))
  {
    hide HasLine;
    PlayKeepsWellFormed(g, LeaveGame(p));
    if g.Playing? {
      FoldTwo(StateOf(g), PlayerLeft(p), GameEnded(Abandoned(p)));
    } else {
      FoldOne(StateOf(g), PlayerLeft(p));
    }
  }

  lemma {:induction false} DeciderRefinesRules(g: Game, cmd: GameCommand)
    requires g.WellFormed()
    ensures Refines(g, cmd)
  {
    hide Refines;
    match cmd {
      case JoinGame(p, name) => JoinRefines(g, p, name);
      case PlaceTile(p, at) => PlaceRefines(g, p, at);
      case LeaveGame(p) => LeaveRefines(g, p);
    }
  }
}
