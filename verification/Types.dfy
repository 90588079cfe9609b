/** The vocabulary of the game: state, events, commands and errors
    (store/src/state.rs, events.rs, commands.rs, errors.rs). */
module Types {

  datatype Option<+T> = None | Some(value: T)

  datatype Result<+T, +E> = Success(value: T) | Failure(error: E)

  /** Rust's u64, also the width of usize on the platforms the server is built for. */
  type U64 = n: nat | n < 0x1_0000_0000_0000_0000

  type PlayerId = U64
  type ClientId = U64
  type GameId = nat
  type CommandId = nat

  /** The sentinel that marks an empty lobby slot. */
  const NOBODY: PlayerId := 0

  datatype Symbol = X | O {
    function Other(): Symbol {
      if X? then O else X
    }
  }

  datatype Tile = Empty | Occupied(symbol: Symbol)

  datatype Stage = Lobby | InGame | Ended

  const EMPTY_BOARD: seq<Tile> := [Empty, Empty, Empty, Empty, Empty, Empty, Empty, Empty, Empty]

  type Board = b: seq<Tile> | |b| == 9 witness EMPTY_BOARD

  /** `playerX` and `playerO` are the two entries of the source's `players` array. */
  datatype GameState = GameState(
    stage: Stage,
    board: Board,
    active: PlayerId,
    playerX: PlayerId,
    playerO: PlayerId)

  const DEFAULT_STATE := GameState(Lobby, EMPTY_BOARD, NOBODY, NOBODY, NOBODY)

  datatype EndGameReason =
    | PlayerWon(winner: PlayerId)
    | Draw
    | Abandoned(leaver: PlayerId)

  datatype GameEvent =
    | PlayerJoined(player: PlayerId, name: string)
    | GameStarted(goesFirst: PlayerId)
    | TilePlaced(player: PlayerId, at: U64)
    | PlayerLeft(player: PlayerId)
    | GameEnded(reason: EndGameReason)
  {
    /** Applying a placement outside the board panics in the source (an array index). */
    predicate InRange() {
      TilePlaced? ==> at < 9
    }
  }

  /** The events that can be applied to a state without a panic. */
  type Event = e: GameEvent | e.InRange() witness PlayerLeft(NOBODY)

  type Log = seq<Event>

  datatype GameCommand =
    | JoinGame(player: PlayerId, name: string)
    | PlaceTile(player: PlayerId, at: U64)
    | LeaveGame(player: PlayerId)

  datatype CommandEnvelope = CommandEnvelope(id: CommandId, gameId: GameId, command: GameCommand)

  datatype TicTacTussleError =
    | WrongStage(expected: Stage, actual: Stage)
    | AlreadyJoined(player: PlayerId)
    | TileOutOfRange(at: U64)
    | TileOccupied(at: U64)
    | NotYourTurn(player: PlayerId)
}
