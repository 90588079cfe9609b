/** The language of event logs. A validator reads a log in whole batches, knowing only the
    rules of the game; the logs it accepts are exactly those a server can produce. */
module LogLanguage {
  import opened Types
  import opened BoardLogic
  import opened Rules
  import opened Decider
  import opened Refinement

  datatype Reading = Batch(next: Game, size: nat) | Malformed

  /** Reads the first batch of `log`: a leave outside play; a join, followed by the start
      when it takes the second seat; a placement, followed by the end when it settles the
      game; a leave during play, followed by the end. */
  function ReadBatch(g: Game, log: seq<GameEvent>): Reading
    requires log != []
  {
    match g
    case Waiting(seats) => (
      match log[0]
      case PlayerLeft(_) => Batch(g, 1)
      case PlayerJoined(p, _) =>
        if p == NOBODY || p in seats then Malformed
        else if seats == [] then Batch(Waiting([p]), 1)
        else if |log| >= 2 && log[1] == GameStarted(seats[0]) then Batch(Playing(Opening(seats[0], p)), 2)
        else Malformed
      case _ => Malformed)
    case Playing(pos) => (
      match log[0]
      case PlayerLeft(p) =>
        if |log| >= 2 && log[1] == GameEnded(Abandoned(p)) then Batch(Over(pos, Abandoned(p)), 2)
        else Malformed
      case TilePlaced(p, at) =>
        if p != pos.Player(pos.turn) || at !in CELLS || at in pos.xs + pos.os then Malformed
        else
          var next := Settle(pos.Mark(at));
          if next.Playing? then Batch(next, 1)
          else if |log| >= 2 && log[1] == GameEnded(next.reason) then Batch(next, 2)
          else Malformed
      case _ => Malformed)
    case Over(_, _) => if log[0].PlayerLeft? then Batch(g, 1) else Malformed
  }

  lemma {:induction false} BatchSize(g: Game, log: seq<GameEvent>)
    requires log != [] && ReadBatch(g, log).Batch?
    ensures 1 <= ReadBatch(g, log).size <= |log| && ReadBatch(g, log).size <= 2
  {
  }

  /** The game a log tells from `g` on, if every batch of it can be read. */
  function Parse(g: Game, log: seq<GameEvent>): Option<Game>
    decreases |log|
  {
    if log == [] then Some(g)
    else
      match ReadBatch(g, log)
      case Malformed => None
      case Batch(next, size) => BatchSize(g, log); Parse(next, log[size..])
  }

  predicate Accepts(log: seq<GameEvent>) {
    Parse(START, log).Some?
  }

  /** What a log means: it parses to the well-formed game `g`, and folds to its state. */
  ghost predicate Tells(log: Log, g: Game) {
    && Parse(START, log) == Some(g)
    && g.WellFormed()
    && Hydrate(log) == StateOf(g)
  }

  lemma {:induction false} TellsWellFormed(log: Log, g: Game)
    requires Tells(log, g)
    ensures g.WellFormed()
  {
  }

  // ── Soundness: every accepted command appends one readable batch ──

  lemma {:induction false} DecidedBatchReads(g: Game, cmd: GameCommand, rest: seq<GameEvent>)
    requires g.WellFormed() && Play(g, cmd).Success?
    requires Decide(StateOf(g), cmd).Success?
    ensures
      var events: seq<GameEvent> := Decide(StateOf(g), cmd).value;
      && events != []
      && ReadBatch(g, events + rest) == Batch(Play(g, cmd).value, |events|)
  {
    hide HasLine, WinningSymbol, IsFull;
    if cmd.PlaceTile? {
      hide Decide;
      PlacementSimulates(g.pos, cmd.at);
    }
  }

  lemma {:induction false} ReadBatchIgnoresRest(g: Game, log: seq<GameEvent>, rest: seq<GameEvent>)
    requires log != [] && ReadBatch(g, log).Batch?
    ensures ReadBatch(g, log + rest) == ReadBatch(g, log)
  {
  }

  lemma {:induction false} ParseAppend(g: Game, log: seq<GameEvent>, rest: seq<GameEvent>)
    requires Parse(g, log).Some?
    ensures Parse(g, log + rest) == Parse(Parse(g, log).value, rest)
    decreases |log|
  {
    hide ReadBatch;
    if log == [] {
      assert log + rest == rest;
    } else {
      ReadBatchIgnoresRest(g, log, rest);
      BatchSize(g, log);
      var batch := ReadBatch(g, log);
      ParseAppend(batch.next, log[batch.size..], rest);
      assert (log + rest)[batch.size..] == log[batch.size..] + rest;
    }
  }

  lemma {:induction false} EmptyLogTells()
    ensures Tells([], START)
  {
  }

  /** One command: refused with the log unchanged, or one batch that moves the game told. */
  lemma {:induction false} HandleTells(log: Log, g: Game, cmd: GameCommand)
    requires Tells(log, g)
    ensures Play(g, cmd).Success? <==> Decide(Hydrate(log), cmd).Success?
    ensures match Play(g, cmd)
            case Success(next) => Tells(Handle(log, cmd), next)
            case Failure(_) => Handle(log, cmd) == log
  {
    DeciderRefinesRules(g, cmd);
    if Play(g, cmd).Success? {
      var events := Decide(StateOf(g), cmd).value;
      DecidedBatchReads(g, cmd, []);
      assert events + [] == events;
      ParseAppend(START, log, events);
      assert events[|events|..] == [];
      HydrateAppend(log, events);
    }
  }

  lemma {:induction false} RunTells(log: Log, g: Game, cmds: seq<GameCommand>) returns (final: Game)
    requires Tells(log, g)
    ensures Tells(HandleAll(log, cmds), final)
    decreases |cmds|
  {
    if cmds == [] {
      final := g;
    } else {
      HandleTells(log, g, cmds[0]);
      var next := if Play(g, cmds[0]).Success? then Play(g, cmds[0]).value else g;
      final := RunTells(Handle(log, cmds[0]), next, cmds[1..]);
    }
  }

  /** Every producible log is explained by a well-formed game. */
  lemma {:induction false} ProducibleTells(log: seq<GameEvent>) returns (g: Game)
    requires Producible(log)
    ensures forall e :: e in log ==> e.InRange()
    ensures Tells(log, g)
  {
    var cmds :| HandleAll([], cmds) == log;
    EmptyLogTells();
    g := RunTells([], START, cmds);
  }

  // ── Completeness: the commands are read back from the log ──

  function CommandOf(e: GameEvent): GameCommand {
    match e
    case PlayerJoined(p, name) => JoinGame(p, name)
    case TilePlaced(p, at) => PlaceTile(p, at)
    case PlayerLeft(p) => LeaveGame(p)
    case _ => LeaveGame(NOBODY)
  }

  /** The commands behind a log: one for the first event of each batch. */
  function Rebuild(g: Game, log: seq<GameEvent>): seq<GameCommand>
    decreases |log|
  {
    if log == [] then []
    else
      match ReadBatch(g, log)
      case Malformed => []
      case Batch(next, size) =>
        BatchSize(g, log);
        [CommandOf(log[0])] + Rebuild(next, log[size..])
  }

  lemma {:induction false} ReadBatchIsDecided(g: Game, log: seq<GameEvent>)
    requires g.WellFormed() && log != [] && ReadBatch(g, log).Batch?
    ensures var batch := ReadBatch(g, log);
            && batch.size <= |log|
            && Play(g, CommandOf(log[0])) == Success(batch.next)
            && Decide(StateOf(g), CommandOf(log[0])).Success?
            && Decide(StateOf(g), CommandOf(log[0])).value == log[..batch.size]
  {
    hide HasLine, WinningSymbol, IsFull;
    BatchSize(g, log);
    var batch := ReadBatch(g, log);
    var cmd := CommandOf(log[0]);
    assert log[..batch.size] == if batch.size == 1 then [log[0]] else [log[0], log[1]];
    if cmd.PlaceTile? {
      PlacementSimulates(g.pos, cmd.at);
    }
    DeciderRefinesRules(g, cmd);
  }

  lemma {:induction false} RebuildStep(log: Log, g: Game, rest: seq<GameEvent>)
    requires Tells(log, g) && rest != [] && ReadBatch(g, rest).Batch?
    ensures var batch := ReadBatch(g, rest);
            && batch.size <= |rest|
            && Handle(log, CommandOf(rest[0])) == log + rest[..batch.size]
            && Tells(Handle(log, CommandOf(rest[0])), batch.next)
  {
    ReadBatchIsDecided(g, rest);
    HandleTells(log, g, CommandOf(rest[0]));
  }

  lemma {:induction false} RebuildProduces(log: Log, g: Game, rest: seq<GameEvent>)
    requires Tells(log, g) && Parse(g, rest).Some?
    ensures HandleAll(log, Rebuild(g, rest)) == log + rest
    decreases |rest|
  {
    hide ReadBatch, Tells;
    if rest == [] {
      assert log + rest == log;
    } else {
      BatchSize(g, rest);
      RebuildStep(log, g, rest);
      var batch := ReadBatch(g, rest);
      var head, tail := rest[..batch.size], rest[batch.size..];
      RebuildProduces(Handle(log, CommandOf(rest[0])), batch.next, tail);
      assert log + rest == (log + head) + tail;
      HandleAllCons(log, CommandOf(rest[0]), Rebuild(batch.next, tail));
    }
  }

  /** The exact language: producible from the empty store if and only if accepted. */
  lemma {:induction false} ProducibleIffAccepted(log: seq<GameEvent>)
    ensures Producible(log) <==> Accepts(log)
  {
    if Producible(log) {
      var g := ProducibleTells(log);
    }
    if Accepts(log) {
      EmptyLogTells();
      RebuildProduces([], START, log);
      assert [] + log == log;
    }
  }

  // ── Batches decided somewhere else ──

  predicate Closes(e: GameEvent) {
    e.GameStarted? || e.GameEnded?
  }

  /** In any state at all: an accepted command gives one event of its own, and perhaps one
      that closes the batch. */
  lemma {:induction false} DecidedBatchShape(s: GameState, cmd: GameCommand)
    requires Decide(s, cmd).Success?
    ensures var events := Decide(s, cmd).value;
            && 1 <= |events| <= 2 && CommandOf(events[0]) == cmd && !Closes(events[0])
            && (|events| == 2 ==> Closes(events[1]))
  {
  }

  lemma {:induction false} ClosingNeedsOpening(g: Game, log: seq<GameEvent>)
    requires log != [] && Closes(log[0])
    ensures ReadBatch(g, log) == Malformed && Parse(g, log) == None
  {
  }

  /** A batch that was decided in any other state, appended to a producible log, keeps it
      producible exactly when deciding the command again on that log gives the same batch. */
  lemma {:induction false} StaleAppendIff(now: Log, s: GameState, cmd: GameCommand)
    requires Producible(now) && Decide(s, cmd).Success?
    ensures Producible(now + Decide(s, cmd).value) <==> Decide(Hydrate(now), cmd) == Decide(s, cmd)
  {
    hide ReadBatch, Decide;
    var events := Decide(s, cmd).value;
    if Decide(Hydrate(now), cmd) == Decide(s, cmd) {
      ProducibleStep(now, cmd);
    }
    if Producible(now + events) {
      DecidedBatchShape(s, cmd);
      var g := ProducibleTells(now);
      ProducibleIffAccepted(now + events);
      ParseAppend(START, now, events);
      assert ReadBatch(g, events).Batch?;
      BatchSize(g, events);
      var batch := ReadBatch(g, events);
      if batch.size < |events| {
        ClosingNeedsOpening(batch.next, events[1..]);
      }
      ReadBatchIsDecided(g, events);
      assert events[..|events|] == events;
    }
  }
}
