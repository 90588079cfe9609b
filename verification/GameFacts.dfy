/** What holds of every log a server can produce, and of the state it folds to. */
module GameFacts {
  import opened Types
  import opened BoardLogic
  import opened Rules
  import opened Decider
  import opened Refinement
  import opened LogLanguage
  import opened History

  // ── Conservation: the game told and the events recorded agree ──

  function Seated(g: Game): seq<PlayerId> {
    if g.Waiting? then g.seats else [g.pos.x, g.pos.o]
  }

  function Started(g: Game): seq<PlayerId> {
    if g.Waiting? then [] else [g.pos.x]
  }

  function MarkersOf(g: Game, c: nat): seq<PlayerId> {
    if g.Waiting? then []
    else if c in g.pos.xs then [g.pos.x]
    else if c in g.pos.os then [g.pos.o]
    else []
  }

  function MarkCount(g: Game): nat {
    if g.Waiting? then 0 else |g.pos.xs| + |g.pos.os|
  }

  function EndingOf(g: Game): seq<EndGameReason> {
    if g.Over? then [g.reason] else []
  }

  /** From `g`, the events of `log` account for the game `later`. */
  ghost predicate Accounts(g: Game, log: seq<GameEvent>, later: Game) {
    && Seated(later) == Seated(g) + Joiners(log)
    && Started(later) == Started(g) + Starters(log)
    && MarkCount(later) == MarkCount(g) + |Placements(log)|
    && EndingOf(later) == EndingOf(g) + Endings(log)
    && forall c: nat :: MarkersOf(later, c) == MarkersOf(g, c) + PlacersAt(log, c)
  }

  lemma {:induction false} CollectOne<T>(pick: GameEvent -> seq<T>, e: GameEvent)
    ensures Collect(pick, [e]) == pick(e)
  {
    assert Collect(pick, [e][1..]) == [];
  }

  lemma {:induction false} CollectTwo<T>(pick: GameEvent -> seq<T>, e: GameEvent, f: GameEvent)
    ensures Collect(pick, [e, f]) == pick(e) + pick(f)
  {
    CollectOne(pick, f);
    assert [e, f][1..] == [f];
  }

  lemma {:induction false} Regroup<T>(a: seq<T>, pick: GameEvent -> seq<T>, head: seq<GameEvent>, tail: seq<GameEvent>)
    ensures (a + Collect(pick, head)) + Collect(pick, tail) == a + Collect(pick, head + tail)
  {
    CollectAppend(pick, head, tail);
  }

  lemma {:induction false} AccountsCompose(g: Game, head: seq<GameEvent>, next: Game, tail: seq<GameEvent>, later: Game)
    requires Accounts(g, head, next) && Accounts(next, tail, later)
    ensures Accounts(g, head + tail, later)
  {
    hide Collect, Seated, Started, MarkersOf, MarkCount, EndingOf;
    Regroup(Seated(g), JoinerIn, head, tail);
    Regroup(Started(g), StarterIn, head, tail);
    CollectAppend(CellIn, head, tail);
    Regroup(EndingOf(g), EndingIn, head, tail);
    forall c: nat ensures MarkersOf(later, c) == MarkersOf(g, c) + PlacersAt(head + tail, c) {
      Regroup(MarkersOf(g, c), PlacerIn(c), head, tail);
    }
  }

  lemma {:induction false} MarkAccounts(pos: Position, p: PlayerId, at: U64)
    requires p == pos.Player(pos.turn) && at !in pos.xs + pos.os
    ensures Accounts(Playing(pos), [TilePlaced(p, at)], Playing(pos.Mark(at)))
  {
    hide Collect;
    var place: GameEvent := TilePlaced(p, at);
    CollectOne(JoinerIn, place);
    CollectOne(StarterIn, place);
    CollectOne(CellIn, place);
    CollectOne(EndingIn, place);
    forall c: nat { CollectOne(PlacerIn(c), place); }
  }

  lemma {:induction false} EndAccounts(pos: Position, reason: EndGameReason)
    ensures Accounts(Playing(pos), [GameEnded(reason)], Over(pos, reason))
  {
    hide Collect;
    var end: GameEvent := GameEnded(reason);
    CollectOne(JoinerIn, end);
    CollectOne(StarterIn, end);
    CollectOne(CellIn, end);
    CollectOne(EndingIn, end);
    forall c: nat { CollectOne(PlacerIn(c), end); }
  }

  lemma {:induction false} PlacementAccounts(pos: Position, p: PlayerId, at: U64)
    requires p == pos.Player(pos.turn) && at !in pos.xs + pos.os
    ensures var next := Settle(pos.Mark(at));
            Accounts(Playing(pos), [TilePlaced(p, at)] + (if next.Over? then [GameEnded(next.reason)] else []), next)
  {
    hide Accounts, HasLine;
    MarkAccounts(pos, p, at);
    var after := pos.Mark(at);
    var next := Settle(after);
    if next.Over? {
      EndAccounts(after, next.reason);
      AccountsCompose(Playing(pos), [TilePlaced(p, at)], Playing(after), [GameEnded(next.reason)], next);
    } else {
      assert [TilePlaced(p, at)] + [] == [TilePlaced(p, at)];
    }
  }

  lemma {:induction false} OtherBatchAccounts(g: Game, log: seq<GameEvent>)
    requires g.WellFormed() && log != [] && ReadBatch(g, log).Batch? && !log[0].TilePlaced?
    requires ReadBatch(g, log).size <= |log|
    ensures Accounts(g, log[..ReadBatch(g, log).size], ReadBatch(g, log).next)
  {
    hide Collect, HasLine, Settle;
    if ReadBatch(g, log).size == 1 {
      assert log[..1] == [log[0]];
      CollectOne(JoinerIn, log[0]);
      CollectOne(StarterIn, log[0]);
      CollectOne(CellIn, log[0]);
      CollectOne(EndingIn, log[0]);
      forall c: nat { CollectOne(PlacerIn(c), log[0]); }
    } else {
      assert log[..2] == [log[0], log[1]];
      CollectTwo(JoinerIn, log[0], log[1]);
      CollectTwo(StarterIn, log[0], log[1]);
      CollectTwo(CellIn, log[0], log[1]);
      CollectTwo(EndingIn, log[0], log[1]);
      forall c: nat { CollectTwo(PlacerIn(c), log[0], log[1]); }
    }
  }

  lemma {:induction false} BatchAccounts(g: Game, log: seq<GameEvent>)
    requires g.WellFormed() && log != [] && ReadBatch(g, log).Batch?
    requires ReadBatch(g, log).size <= |log|
    ensures Accounts(g, log[..ReadBatch(g, log).size], ReadBatch(g, log).next)
  {
    hide Accounts, HasLine;
    if log[0].TilePlaced? {
      PlacementAccounts(g.pos, log[0].player, log[0].at);
      var batch := ReadBatch(g, log);
      assert log[..batch.size] ==
             [log[0]] + (if batch.next.Over? then [GameEnded(batch.next.reason)] else []);
    } else {
      OtherBatchAccounts(g, log);
    }
  }

  lemma {:induction false} BatchWellFormed(g: Game, log: seq<GameEvent>)
    requires g.WellFormed() && log != [] && ReadBatch(g, log).Batch?
    ensures ReadBatch(g, log).next.WellFormed()
  {
    hide ReadBatch, HasLine;
    ReadBatchIsDecided(g, log);
    PlayKeepsWellFormed(g, CommandOf(log[0]));
  }

  lemma {:induction false} NothingAccounts(g: Game)
    ensures Accounts(g, [], g)
  {
  }

  lemma {:induction false} ParseAccounts(g: Game, log: seq<GameEvent>)
    requires g.WellFormed() && Parse(g, log).Some?
    ensures Accounts(g, log, Parse(g, log).value)
    decreases |log|
  {
    hide ReadBatch, Accounts, HasLine;
    if log == [] {
      NothingAccounts(g);
    } else {
      BatchSize(g, log);
      BatchAccounts(g, log);
      BatchWellFormed(g, log);
      var batch := ReadBatch(g, log);
      var head, tail := log[..batch.size], log[batch.size..];
      ParseAccounts(batch.next, tail);
      AccountsCompose(g, head, batch.next, tail, Parse(g, log).value);
      assert log == head + tail;
    }
  }

  /** The game told by a producible log, with every event of the log accounted for. */
  ghost predicate Explains(log: Log, g: Game) {
    && Tells(log, g)
    && Joiners(log) == Seated(g)
    && Starters(log) == Started(g)
    && |Placements(log)| == MarkCount(g)
    && Endings(log) == EndingOf(g)
    && forall c: nat :: PlacersAt(log, c) == MarkersOf(g, c)
  }

  lemma {:induction false} ProducibleExplained(log: seq<GameEvent>) returns (g: Game)
    requires Producible(log)
    ensures forall e :: e in log ==> e.InRange()
    ensures Explains(log, g)
  {
    g := ProducibleTells(log);
    ParseAccounts(START, log);
  }

  // ── The invariant of every state at a batch boundary ──

  ghost predicate BoundaryInvariant(s: GameState) {
    var xs, os := CellsOf(s.board, X), CellsOf(s.board, O);
    && (s.stage.Lobby? ==> s.board == EMPTY_BOARD && s.playerO == NOBODY && s.active == NOBODY)
    && (!s.stage.Lobby? ==>
          && s.playerX != NOBODY && s.playerO != NOBODY && s.playerX != s.playerO
          && (s.active == s.playerX || s.active == s.playerO)
          && |xs| == |os| + (if s.active == s.playerX then 0 else 1))
    && (s.stage.InGame? ==> !HasLine(xs) && !HasLine(os) && exists c :: 0 <= c < 9 && s.board[c] == Empty)
  }

  lemma {:induction false} FreeCell(pos: Position) returns (c: nat)
    requires pos.WellFormed() && !pos.Full()
    ensures c < 9 && c !in pos.xs + pos.os && BoardOf(pos)[c] == Empty
  {
    var taken := pos.xs + pos.os;
    assert exists c :: c in CELLS && c !in taken;
    c :| c in CELLS && c !in taken;
  }

  lemma {:induction false} ReachableStatesKeepInvariant(log: Log)
    requires Producible(log)
    ensures BoundaryInvariant(Hydrate(log))
  {
    hide HasLine;
    var g := ProducibleExplained(log);
    if !g.Waiting? {
      BoardShowsMarks(g.pos);
      if g.Playing? {
        var c := FreeCell(g.pos);
      }
    }
  }

  /** The player to move always has a move that is accepted. */
  lemma {:induction false} ActivePlayerCanMove(log: Log)
    requires Producible(log) && Hydrate(log).stage == InGame
    ensures exists at: U64 :: Decide(Hydrate(log), PlaceTile(Hydrate(log).active, at)).Success?
  {
    var g := ProducibleExplained(log);
    var c := FreeCell(g.pos);
    PlacementSimulates(g.pos, c);
  }

  // ── Endings ──

  /** What the final board says when a game ended for `reason`. */
  ghost predicate EndedRightly(s: GameState, reason: EndGameReason) {
    var xs, os := CellsOf(s.board, X), CellsOf(s.board, O);
    match reason
    case PlayerWon(w) =>
      || (w == s.playerX && HasLine(xs) && !HasLine(os))
      || (w == s.playerO && HasLine(os) && !HasLine(xs))
    case Draw => IsFull(s.board) && !HasLine(xs) && !HasLine(os)
    case Abandoned(_) => !IsFull(s.board) && !HasLine(xs) && !HasLine(os)
  }

  /** A game is over exactly when its log has an ending, and then it has one, which
      claims what the board shows. */
  lemma {:induction false} EndingsAreSound(log: Log)
    requires Producible(log)
    ensures Hydrate(log).stage == Ended <==> Endings(log) != []
    ensures |Endings(log)| <= 1
    ensures Endings(log) != [] ==> EndedRightly(Hydrate(log), Endings(log)[0])
  {
    hide HasLine;
    var g := ProducibleExplained(log);
    if g.Over? {
      BoardShowsMarks(g.pos);
      FullIffAllCellsTaken(BoardOf(g.pos));
    }
  }

  /** Read the other way: of an ended game the board alone tells won, drawn and abandoned
      apart, and names the winner. */
  lemma {:induction false} BoardDeterminesEnding(log: Log)
    requires Producible(log) && Hydrate(log).stage == Ended
    ensures
      var s := Hydrate(log);
      var xs, os := CellsOf(s.board, X), CellsOf(s.board, O);
      && |Endings(log)| == 1
      && (Endings(log)[0] == PlayerWon(s.playerX) <==> HasLine(xs))
      && (Endings(log)[0] == PlayerWon(s.playerO) <==> HasLine(os))
      && (Endings(log)[0] == Draw <==> IsFull(s.board) && !HasLine(xs) && !HasLine(os))
  {
    hide HasLine;
    EndingsAreSound(log);
    ReachableStatesKeepInvariant(log);
  }

  /** On the boards of producible logs every held pattern belongs to the one winner, whom
      the log names. */
  lemma {:induction false} HeldPatternNamesWinner(log: Log, k: nat, s: Symbol)
    requires Producible(log) && k < 8 && Holds(Hydrate(log).board, WIN_PATTERNS[k], s)
    ensures WinningSymbol(Hydrate(log).board) == Some(s)
    ensures Endings(log) == [PlayerWon(if s == X then Hydrate(log).playerX else Hydrate(log).playerO)]
  {
    var board := Hydrate(log).board;
    PatternIsLine(board, s, k);
    TableIsInOrder();
    hide HasLine, Scan, Holds, Reorders;
    ReachableStatesKeepInvariant(log);
    EndingsAreSound(log);
    BoardDeterminesEnding(log);
    ScanOrderIrrelevant(board, s, WIN_PATTERNS);
  }

  /** So on these boards a table in any other order gives the same answer. */
  lemma {:induction false} ScanOrderNeverMatters(log: Log, table: seq<Pattern>)
    requires Producible(log) && Reorders(table)
    ensures Scan(Hydrate(log).board, table) == WinningSymbol(Hydrate(log).board)
  {
    hide HasLine, Scan, Holds, Reorders;
    var board := Hydrate(log).board;
    TableIsInOrder();
    ScanFindsLine(board, table);
    ScanFindsLine(board, WIN_PATTERNS);
    if s :| HasLine(CellsOf(board, s)) {
      HasLineIffPattern(board, s);
      var k :| 0 <= k < 8 && Holds(board, WIN_PATTERNS[k], s);
      HeldPatternNamesWinner(log, k, s);
      var r := Scan(board, table).value;
      HasLineIffPattern(board, r);
      var j :| 0 <= j < 8 && Holds(board, WIN_PATTERNS[j], r);
      HeldPatternNamesWinner(log, j, r);
    }
  }

  // ── Bounds ──

  lemma {:induction false} AtMostNineMarks(pos: Position)
    requires pos.WellFormed()
    ensures |pos.xs| + |pos.os| <= 9
  {
    assert CELLS == {0, 1, 2, 3, 4, 5, 6, 7, 8};
    SubsetSize(pos.xs + pos.os, CELLS);
  }

  lemma {:induction false} SubsetSize(a: set<nat>, b: set<nat>)
    requires a <= b
    ensures |a| <= |b|
    decreases a
  {
    if a != {} {
      var e :| e in a;
      SubsetSize(a - {e}, b - {e});
    }
  }

  /** However many commands arrive, the events that change a game are bounded. */
  lemma {:induction false} EventsAreBounded(log: Log)
    requires Producible(log)
    ensures |Joiners(log)| <= 2 && |Starters(log)| <= 1 && |Placements(log)| <= 9 && |Endings(log)| <= 1
  {
    var g := ProducibleExplained(log);
    if !g.Waiting? {
      AtMostNineMarks(g.pos);
    }
  }

  function Rank(stage: Stage): nat {
    match stage case Lobby => 0 case InGame => 1 case Ended => 2
  }

  /** From any state at all: the stage never goes back, and an ended state never changes. */
  lemma {:induction false} StageAdvances(s: GameState, cmd: GameCommand)
    requires Decide(s, cmd).Success?
    ensures var after := Fold(s, Decide(s, cmd).value);
            && Rank(s.stage) <= Rank(after.stage)
            && (s.stage == Ended ==> after == s)
  {
    FoldBatch(s, Decide(s, cmd).value);
  }

  lemma {:induction false} StageNeverGoesBack(log: Log, cmds: seq<GameCommand>)
    ensures Rank(Hydrate(log).stage) <= Rank(Hydrate(HandleAll(log, cmds)).stage)
    ensures Hydrate(log).stage == Ended ==> Hydrate(HandleAll(log, cmds)) == Hydrate(log)
    decreases |cmds|
  {
    if cmds != [] {
      if Decide(Hydrate(log), cmds[0]).Success? {
        StageAdvances(Hydrate(log), cmds[0]);
        HydrateAppend(log, Decide(Hydrate(log), cmds[0]).value);
      }
      StageNeverGoesBack(Handle(log, cmds[0]), cmds[1..]);
    }
  }

  // ── Board and log ──

  /** A cell shows a player's symbol exactly when that player, and nobody else, placed a
      tile there, once. */
  lemma {:induction false} BoardAndLogAgree(log: Log, c: nat)
    requires Producible(log) && c < 9
    ensures var s := Hydrate(log);
            && PlacersAt(log, c) ==
               (match s.board[c]
                case Empty => []
                case Occupied(symbol) => [if symbol == X then s.playerX else s.playerO])
            && |Placements(log)| == |CellsOf(s.board, X)| + |CellsOf(s.board, O)|
  {
    hide HasLine;
    var g := ProducibleExplained(log);
    if g.Waiting? {
      assert CellsOf(EMPTY_BOARD, X) == {} && CellsOf(EMPTY_BOARD, O) == {};
    } else {
      BoardShowsMarks(g.pos);
      assert BoardOf(g.pos)[c] == TileAt(g.pos, c);
    }
  }

  // ── Prefixes that cut a batch ──

  lemma {:induction false} ReadBatchPrefix(g: Game, log: seq<GameEvent>, n: nat)
    requires log != [] && ReadBatch(g, log).Batch? && ReadBatch(g, log).size <= n <= |log|
    ensures n != 0 && ReadBatch(g, log[..n]) == ReadBatch(g, log)
  {
  }

  /** The last batch boundary at or before `n`. Only a batch of two can be cut. */
  lemma {:induction false} LastBoundary(g: Game, log: seq<GameEvent>, n: nat) returns (k: nat)
    requires Parse(g, log).Some? && n <= |log|
    ensures k <= n && Parse(g, log[..k]).Some?
    ensures k != n ==>
              && k + 1 == n < |log|
              && var batch := ReadBatch(Parse(g, log[..k]).value, log[k..]);
              && batch.Batch? && batch.size == 2
              && Parse(g, log[..n + 1]) == Some(batch.next)
    decreases |log|
  {
    hide ReadBatch;
    if n == 0 {
      return 0;
    }
    BatchSize(g, log);
    var size := ReadBatch(g, log).size;
    if n < size {
      k := 0;
      assert log[0..] == log && log[..2][2..] == [];
      ReadBatchPrefix(g, log, 2);
    } else {
      var rest := log[size..];
      var j := LastBoundary(ReadBatch(g, log).next, rest, n - size);
      k := size + j;
      ReadBatchPrefix(g, log, k);
      assert log[..k][size..] == rest[..j];
      assert log[k..] == rest[j..];
      if k != n {
        ReadBatchPrefix(g, log, n + 1);
        assert log[..n + 1][size..] == rest[..n + 1 - size];
      }
    }
  }

  /** The state between the two events of a batch that was decided in state `before`. */
  ghost predicate MidBatch(before: GameState, first: Event, second: Event, s: GameState) {
    match second
    case GameStarted(x) =>
      // both seats filled, still in the lobby
      && first.PlayerJoined? && before.stage == Lobby
      && s == before.(playerO := first.player) && s.playerX == x
      && s.playerX != NOBODY && s.playerO != NOBODY && s.playerX != s.playerO
    case GameEnded(Abandoned(p)) =>
      // a leave alone changes nothing
      first == PlayerLeft(p) && before.stage == InGame && s == before
    case GameEnded(reason) =>
      // a finished board, still in play
      && first.TilePlaced? && before.stage == InGame && s.stage == InGame
      && EndedRightly(s, reason)
    case _ => false
  }

  /** A settling mark ends the game for the reason that its board already shows. */
  lemma {:induction false} SettledBoardShows(pos: Position)
    requires pos.WellFormed() && Settle(pos).WellFormed() && Settle(pos).Over?
    ensures EndedRightly(StateOf(Playing(pos)), Settle(pos).reason) && !Settle(pos).reason.Abandoned?
  {
    hide HasLine;
    BoardShowsMarks(pos);
    FullIffAllCellsTaken(BoardOf(pos));
  }

  lemma {:induction false} CutPlacementState(g: Game, first: Event, second: Event)
    requires g.WellFormed() && first.TilePlaced?
    requires ReadBatch(g, [first, second]).Batch? && ReadBatch(g, [first, second]).size == 2
    ensures MidBatch(StateOf(g), first, second, Evolve(StateOf(g), first))
  {
    hide HasLine, EndedRightly;
    var after := g.pos.Mark(first.at);
    PlacementEvolves(g.pos, first.at);
    MarkKeepsWellFormed(g.pos, first.at);
    SettleWellFormed(g.pos, first.at);
    SettledBoardShows(after);
  }

  lemma {:induction false} CutBatchState(log: Log, g: Game, first: Event, second: Event)
    requires Tells(log, g)
    requires ReadBatch(g, [first, second]).Batch? && ReadBatch(g, [first, second]).size == 2
    ensures MidBatch(Hydrate(log), first, second, Evolve(Hydrate(log), first))
  {
    hide HasLine, EndedRightly, Settle, Parse, BoardOf;
    if first.TilePlaced? {
      CutPlacementState(g, first, second);
    }
  }

  /** Every prefix of a producible log is producible itself, or cuts one batch of two
      events, in one of the three named ways. */
  lemma {:induction false} PrefixForms(log: Log, n: nat)
    requires Producible(log) && n <= |log|
    ensures
      || Producible(log[..n])
      || (&& 1 <= n < |log|
          && Producible(log[..n - 1]) && Producible(log[..n + 1])
          && MidBatch(Hydrate(log[..n - 1]), log[n - 1], log[n], Hydrate(log[..n])))
  {
    hide ReadBatch, MidBatch, HasLine;
    ProducibleIffAccepted(log);
    var k := LastBoundary(START, log, n);
    ProducibleIffAccepted(log[..k]);
    if k != n {
      var before := log[..k];
      var g := ProducibleTells(before);
      ProducibleIffAccepted(log[..n + 1]);
      ReadBatchPrefix(g, log[k..], 2);
      assert log[k..][..2] == [log[k], log[n]];
      CutBatchState(before, g, log[k], log[n]);
      assert log[..n] == before + [log[k]];
      HydrateAppend(before, [log[k]]);
      FoldOne(Hydrate(before), log[k]);
    }
  }
}
