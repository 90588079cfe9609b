/** Win and draw detection (store/src/board.rs). */
module BoardLogic {
  import opened Types

  /** Three cells of the board. */
  type Pattern = p: (nat, nat, nat) | p.0 < 9 && p.1 < 9 && p.2 < 9 witness (0, 0, 0)

  const WIN_PATTERNS: seq<Pattern> := [
    (0, 1, 2), (3, 4, 5), (6, 7, 8),
    (0, 3, 6), (1, 4, 7), (2, 5, 8),
    (0, 4, 8), (2, 4, 6)]

  predicate Holds(board: Board, pattern: Pattern, s: Symbol) {
    && board[pattern.0] == Occupied(s)
    && board[pattern.1] == Occupied(s)
    && board[pattern.2] == Occupied(s)
  }

  /** The symbol of the first pattern of the table whose three cells agree. */
  function Scan(board: Board, table: seq<Pattern>): Option<Symbol> {
    if table == [] then None
    else
      var first := board[table[0].0];
      if first.Occupied? && Holds(board, table[0], first.symbol) then Some(first.symbol)
      else Scan(board, table[1..])
  }

  function WinningSymbol(board: Board): Option<Symbol> {
    Scan(board, WIN_PATTERNS)
  }

  predicate IsFull(board: Board) {
    forall i :: 0 <= i < 9 ==> board[i] != Empty
  }

  // ── The geometry of the board, stated without the pattern table ──

  const CELLS: set<nat> := set c: nat | c < 9

  function Row(k: nat): set<nat> { set c: nat | c < 9 && c / 3 == k }
  function Column(k: nat): set<nat> { set c: nat | c < 9 && c % 3 == k }
  const DIAGONAL: set<nat> := set c: nat | c < 9 && c / 3 == c % 3
  const ANTIDIAGONAL: set<nat> := set c: nat | c < 9 && c / 3 + c % 3 == 2

  /** `cells` contains a whole row, column or diagonal. */
  predicate HasLine(cells: set<nat>) {
    || (exists k: nat | k < 3 :: Row(k) <= cells)
    || (exists k: nat | k < 3 :: Column(k) <= cells)
    || DIAGONAL <= cells
    || ANTIDIAGONAL <= cells
  }

  function CellsOf(board: Board, s: Symbol): set<nat> {
    set c: nat | c < 9 && board[c] == Occupied(s)
  }

  lemma {:induction false} LinesAreThePatterns()
    ensures Row(0) == {0, 1, 2} && Row(1) == {3, 4, 5} && Row(2) == {6, 7, 8}
    ensures Column(0) == {0, 3, 6} && Column(1) == {1, 4, 7} && Column(2) == {2, 5, 8}
    ensures DIAGONAL == {0, 4, 8} && ANTIDIAGONAL == {2, 4, 6}
  {
  }

  lemma {:induction false} HoldsIffOwned(board: Board, k: nat, s: Symbol)
    requires k < 8
    ensures var (a, b, c) := WIN_PATTERNS[k];
            Holds(board, WIN_PATTERNS[k], s) <==> {a, b, c} <= CellsOf(board, s)
  {
  }

  lemma {:induction false} LineHasPattern(board: Board, s: Symbol) returns (k: nat)
    requires HasLine(CellsOf(board, s))
    ensures k < 8 && Holds(board, WIN_PATTERNS[k], s)
  {
    var cells := CellsOf(board, s);
    LinesAreThePatterns();
    if j: nat :| j < 3 && Row(j) <= cells {
      k := j;
    } else if j: nat :| j < 3 && Column(j) <= cells {
      k := 3 + j;
    } else {
      k := if DIAGONAL <= cells then 6 else 7;
    }
    HoldsIffOwned(board, k, s);
  }

  lemma {:induction false} PatternIsLine(board: Board, s: Symbol, k: nat)
    requires k < 8 && Holds(board, WIN_PATTERNS[k], s)
    ensures HasLine(CellsOf(board, s))
  {
    LinesAreThePatterns();
    HoldsIffOwned(board, k, s);
    if k < 3 {
      assert Row(k) <= CellsOf(board, s);
    } else if k < 6 {
      assert Column(k - 3) <= CellsOf(board, s);
    }
  }

  /** The eight patterns of the table are exactly the rows, columns and diagonals. */
  lemma {:induction false} HasLineIffPattern(board: Board, s: Symbol)
    ensures HasLine(CellsOf(board, s)) <==> exists k :: 0 <= k < 8 && Holds(board, WIN_PATTERNS[k], s)
  {
    hide HasLine;
    if HasLine(CellsOf(board, s)) {
      var k := LineHasPattern(board, s);
    }
    if k :| 0 <= k < 8 && Holds(board, WIN_PATTERNS[k], s) {
      PatternIsLine(board, s, k);
    }
  }

  lemma {:induction false} ScanFinds(board: Board, table: seq<Pattern>)
    ensures var r := Scan(board, table);
            && (r.Some? ==> exists p :: p in table && Holds(board, p, r.value))
            && (r.None? ==> forall p, s :: p in table ==> !Holds(board, p, s))
  {
    if table != [] {
      ScanFinds(board, table[1..]);
      assert table == [table[0]] + table[1..];
    }
  }

  /** A table that lists the eight patterns, in some order. */
  predicate Reorders(table: seq<Pattern>) {
    multiset(table) == multiset(WIN_PATTERNS)
  }

  lemma {:induction false} TableIsInOrder()
    ensures Reorders(WIN_PATTERNS)
  {
  }

  lemma {:induction false} ReorderedHasSame(table: seq<Pattern>, p: Pattern)
    requires Reorders(table)
    ensures p in table <==> p in WIN_PATTERNS
  {
    assert p in table <==> p in multiset(table);
    assert p in WIN_PATTERNS <==> p in multiset(WIN_PATTERNS);
  }

  lemma {:induction false} ScanFindsLine(board: Board, table: seq<Pattern>)
    requires Reorders(table)
    ensures var r := Scan(board, table);
            && (r.Some? <==> exists s :: HasLine(CellsOf(board, s)))
            && (r.Some? ==> HasLine(CellsOf(board, r.value)))
  {
    hide HasLine, Holds, Scan, Reorders;
    ScanFinds(board, table);
    var r := Scan(board, table);
    if r.Some? {
      var p :| p in table && Holds(board, p, r.value);
      ReorderedHasSame(table, p);
      var k :| 0 <= k < 8 && WIN_PATTERNS[k] == p;
      PatternIsLine(board, r.value, k);
    } else {
      forall s ensures !HasLine(CellsOf(board, s)) {
        if HasLine(CellsOf(board, s)) {
          var k := LineHasPattern(board, s);
          ReorderedHasSame(table, WIN_PATTERNS[k]);
        }
      }
    }
  }

  /** The scan answers some symbol exactly when a symbol has a line, and the symbol it
      answers has one. */
  lemma {:induction false} WinningSymbolSound(board: Board)
    ensures var r := WinningSymbol(board);
            && (r.Some? <==> exists s :: HasLine(CellsOf(board, s)))
            && (r.Some? ==> HasLine(CellsOf(board, r.value)))
  {
    ScanFindsLine(board, WIN_PATTERNS);
  }

  /** A board with at most one winner: whatever the order of the table, the scan answers
      that winner or none. */
  lemma {:induction false} ScanOrderIrrelevant(board: Board, s: Symbol, table: seq<Pattern>)
    requires !HasLine(CellsOf(board, s.Other())) && Reorders(table)
    ensures Scan(board, table) == if HasLine(CellsOf(board, s)) then Some(s) else None
  {
    ScanFindsLine(board, table);
    var r := Scan(board, table);
    assert r.Some? ==> r.value == s || r.value == s.Other();
  }

  lemma {:induction false} FullIffAllCellsTaken(board: Board)
    ensures IsFull(board) <==> CellsOf(board, X) + CellsOf(board, O) == CELLS
  {
    var taken := CellsOf(board, X) + CellsOf(board, O);
    if IsFull(board) {
      forall c | c in CELLS ensures c in taken {
        assert board[c] != Empty && (board[c].symbol == X || board[c].symbol == O);
      }
    }
    if taken == CELLS {
      forall i | 0 <= i < 9 ensures board[i] != Empty {
        assert i in CELLS;
      }
    }
  }
}
