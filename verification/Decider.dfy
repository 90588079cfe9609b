/** The functional core (store/src/decider.rs): commands are decided against a state,
    events are folded into one. */
module Decider {
  import opened Types
  import opened BoardLogic

  function Evolve(state: GameState, event: Event): GameState {
    match event
    case PlayerJoined(player, _) =>
      if state.playerX == NOBODY then state.(playerX := player) else state.(playerO := player)
    case GameStarted(goesFirst) =>
      state.(stage := InGame, active := goesFirst)
    case TilePlaced(player, at) =>
      var symbol := if state.playerX == player then X else O;
      var turn := if state.playerX == player then state.playerO else state.playerX;
      GameState(state.stage, state.board[at := Occupied(symbol)], turn, state.playerX, state.playerO)
    case PlayerLeft(_) => state
    case GameEnded(_) => state.(stage := Ended)
  }

  function Decide(state: GameState, cmd: GameCommand): Result<Log, TicTacTussleError> {
    match cmd
    case JoinGame(player, name) =>
      if state.stage != Lobby then Failure(WrongStage(Lobby, state.stage))
      else if state.playerX == player || state.playerO == player then Failure(AlreadyJoined(player))
      else
        var join := PlayerJoined(player, name);
        var next := Evolve(state, join);
        if next.playerO != NOBODY then Success([join, GameStarted(next.playerX)])
        else Success([join])
    case PlaceTile(player, at) =>
      if state.stage != InGame then Failure(WrongStage(InGame, state.stage))
      else if state.active != player then Failure(NotYourTurn(player))
      else if at > 8 then Failure(TileOutOfRange(at))
      else if state.board[at] != Empty then Failure(TileOccupied(at))
      else
        var place := TilePlaced(player, at);
        var next := Evolve(state, place);
        if WinningSymbol(next.board).Some? then Success([place, GameEnded(PlayerWon(player))])
        else if IsFull(next.board) then Success([place, GameEnded(Draw)])
        else Success([place])
    case LeaveGame(player) =>
      if state.stage == InGame then Success([PlayerLeft(player), GameEnded(Abandoned(player))])
      else Success([PlayerLeft(player)])
  }

  function Fold(state: GameState, events: Log): GameState
    decreases |events|
  {
    if events == [] then state else Fold(Evolve(state, events[0]), events[1..])
  }

  function Hydrate(events: Log): GameState {
    Fold(DEFAULT_STATE, events)
  }

  /** What handling one command for this game does to its log: hydrate, decide, append. */
  function Handle(log: Log, cmd: GameCommand): Log {
    match Decide(Hydrate(log), cmd)
    case Success(events) => log + events
    case Failure(_) => log
  }

  predicate Accepted(log: Log, cmd: GameCommand) {
    Decide(Hydrate(log), cmd).Success?
  }

  function HandleAll(log: Log, cmds: seq<GameCommand>): Log
    decreases |cmds|
  {
    if cmds == [] then log else HandleAll(Handle(log, cmds[0]), cmds[1..])
  }

  /** The logs a server can reach from an empty store. */
  ghost predicate Producible(log: seq<GameEvent>) {
    exists cmds :: HandleAll([], cmds) == log
  }

  lemma {:induction false} FoldAppend(state: GameState, first: Log, second: Log)
    ensures Fold(state, first + second) == Fold(Fold(state, first), second)
    decreases |first|
  {
    if first == [] {
      assert first + second == second;
    } else {
      FoldAppend(Evolve(state, first[0]), first[1..], second);
      assert (first + second)[1..] == first[1..] + second;
    }
  }

  lemma {:induction false} HydrateAppend(log: Log, events: Log)
    ensures Hydrate(log + events) == Fold(Hydrate(log), events)
  {
    FoldAppend(DEFAULT_STATE, log, events);
  }

  lemma {:induction false} FoldOne(state: GameState, e: Event)
    ensures Fold(state, [e]) == Evolve(state, e)
  {
    assert Fold(Evolve(state, e), []) == Evolve(state, e);
  }

  lemma {:induction false} FoldTwo(state: GameState, e: Event, f: Event)
    ensures Fold(state, [e, f]) == Evolve(Evolve(state, e), f)
  {
    assert [e, f][1..] == [f];
    FoldOne(Evolve(state, e), f);
  }

  lemma {:induction false} FoldBatch(s: GameState, events: Log)
    requires 1 <= |events| <= 2
    ensures Fold(s, events) ==
            if |events| == 1 then Evolve(s, events[0]) else Evolve(Evolve(s, events[0]), events[1])
  {
    if |events| == 1 {
      assert events == [events[0]];
      FoldOne(s, events[0]);
    } else {
      assert events == [events[0], events[1]];
      FoldTwo(s, events[0], events[1]);
    }
  }

  lemma {:induction false} HandleAllNone(log: Log)
    ensures HandleAll(log, []) == log
  {
  }

  lemma {:induction false} HandleAllCons(log: Log, cmd: GameCommand, cmds: seq<GameCommand>)
    ensures HandleAll(log, [cmd] + cmds) == HandleAll(Handle(log, cmd), cmds)
  {
    assert ([cmd] + cmds)[1..] == cmds;
  }

  lemma {:induction false} HandleAllAppend(log: Log, first: seq<GameCommand>, second: seq<GameCommand>)
    ensures HandleAll(log, first + second) == HandleAll(HandleAll(log, first), second)
    decreases |first|
  {
    hide Handle;
    if first == [] {
      assert first + second == second;
    } else {
      HandleAllAppend(Handle(log, first[0]), first[1..], second);
      assert (first + second)[1..] == first[1..] + second;
    }
  }

  lemma {:induction false} HandleAllSnoc(log: Log, cmds: seq<GameCommand>, cmd: GameCommand)
    ensures HandleAll(log, cmds + [cmd]) == Handle(HandleAll(log, cmds), cmd)
  {
    HandleAllAppend(log, cmds, [cmd]);
    HandleAllCons(HandleAll(log, cmds), cmd, []);
    assert [cmd] + [] == [cmd];
  }

  /** Histories are only ever extended. */
  lemma {:induction false} LogOnlyGrows(log: Log, cmds: seq<GameCommand>)
    ensures log <= HandleAll(log, cmds)
    decreases |cmds|
  {
    if cmds != [] {
      LogOnlyGrows(Handle(log, cmds[0]), cmds[1..]);
    }
  }

  lemma {:induction false} ProducibleStep(log: Log, cmd: GameCommand)
    requires Producible(log)
    ensures Producible(Handle(log, cmd))
  {
    var cmds :| HandleAll([], cmds) == log;
    HandleAllSnoc([], cmds, cmd);
  }
}
