/** The game as its rules describe it: two seats, two sets of marked cells and a turn.
    Nothing here knows about events, slots or the board array. */
module Rules {
  import opened Types
  import opened BoardLogic

  datatype Position = Position(x: PlayerId, o: PlayerId, xs: set<nat>, os: set<nat>, turn: Symbol) {
    function Player(s: Symbol): PlayerId {
      if s.X? then x else o
    }

    function Marks(s: Symbol): set<nat> {
      if s.X? then xs else os
    }

    /** The player to move marks `at` and the turn passes. */
    function Mark(at: nat): Position {
      if turn.X? then Position(x, o, xs + {at}, os, O) else Position(x, o, xs, os + {at}, X)
    }

    predicate Full() {
      xs + os == CELLS
    }

    predicate Decided() {
      HasLine(xs) || HasLine(os)
    }

    predicate WellFormed() {
      && x != NOBODY && o != NOBODY && x != o
      && xs <= CELLS && os <= CELLS && xs !! os
      && |xs| == |os| + (if turn.X? then 0 else 1)
    }
  }

  datatype Game =
    | Waiting(seats: seq<PlayerId>)
    | Playing(pos: Position)
    | Over(pos: Position, reason: EndGameReason)
  {
    ghost predicate WellFormed() {
      match this
      case Waiting(seats) => |seats| <= 1 && NOBODY !in seats
      case Playing(pos) => pos.WellFormed() && !pos.Decided() && !pos.Full()
      case Over(pos, reason) => pos.WellFormed() && ReasonHolds(pos, reason)
    }
  }

  /** What each reason for ending claims about the final position. The winner is the
      player who moved last, the only one with a line. */
  ghost predicate ReasonHolds(pos: Position, reason: EndGameReason) {
    match reason
    case PlayerWon(winner) =>
      var s := pos.turn.Other();
      winner == pos.Player(s) && HasLine(pos.Marks(s)) && !HasLine(pos.Marks(pos.turn))
    case Draw => pos.Full() && !pos.Decided()
    case Abandoned(_) => !pos.Decided() && !pos.Full()
  }

  /** The game after the last mover's mark. */
  function Settle(pos: Position): Game {
    var s := pos.turn.Other();
    if HasLine(pos.Marks(s)) then Over(pos, PlayerWon(pos.Player(s)))
    else if pos.Full() then Over(pos, Draw)
    else Playing(pos)
  }

  const START := Waiting([])

  function Opening(x: PlayerId, o: PlayerId): Position {
    Position(x, o, {}, {}, X)
  }

  function StageOf(g: Game): Stage {
    match g
    case Waiting(_) => Lobby
    case Playing(_) => InGame
    case Over(_, _) => Ended
  }

  /** The rules: the next game, or why the command is refused. */
  function Play(g: Game, cmd: GameCommand): Result<Game, TicTacTussleError> {
    match cmd
    case JoinGame(p, _) =>
      if !g.Waiting? then Failure(WrongStage(Lobby, StageOf(g)))
      else if p == NOBODY || p in g.seats then Failure(AlreadyJoined(p))
      else if g.seats == [] then Success(Waiting([p]))
      else Success(Playing(Opening(g.seats[0], p)))
    case PlaceTile(p, at) =>
      if !g.Playing? then Failure(WrongStage(InGame, StageOf(g)))
      else if p != g.pos.Player(g.pos.turn) then Failure(NotYourTurn(p))
      else if at !in CELLS then Failure(TileOutOfRange(at))
      else if at in g.pos.xs + g.pos.os then Failure(TileOccupied(at))
      else Success(Settle(g.pos.Mark(at)))
    case LeaveGame(p) =>
      if g.Playing? then Success(Over(g.pos, Abandoned(p))) else Success(g)
  }

  lemma {:induction false} EmptyHasNoLine()
    ensures !HasLine({})
  {
    LinesAreThePatterns();
    assert 0 in Row(0) && 3 in Row(1) && 6 in Row(2);
    assert 0 in Column(0) && 1 in Column(1) && 2 in Column(2);
    forall k: nat | k < 3 ensures !(Row(k) <= {}) && !(Column(k) <= {}) {
      assert k * 3 in Row(k) && k in Column(k);
    }
    assert 4 in DIAGONAL && 4 in ANTIDIAGONAL;
  }

  lemma {:induction false} MarkKeepsWellFormed(pos: Position, at: nat)
    requires pos.WellFormed() && at in CELLS && at !in pos.xs + pos.os
    ensures pos.Mark(at).WellFormed()
  {
  }

  lemma {:induction false} SettleWellFormed(pos: Position, at: nat)
    requires Playing(pos).WellFormed() && at in CELLS && at !in pos.xs + pos.os
    ensures Settle(pos.Mark(at)).WellFormed()
  {
    MarkKeepsWellFormed(pos, at);
  }

  /** The invariant of every game: legal moves keep it. */
  lemma {:induction false} PlayKeepsWellFormed(g: Game, cmd: GameCommand)
    requires g.WellFormed() && Play(g, cmd).Success?
    ensures Play(g, cmd).value.WellFormed()
  {
    EmptyHasNoLine();
    assert 0 in CELLS;
    if cmd.PlaceTile? {
      SettleWellFormed(g.pos, cmd.at);
    }
  }
}
