/** The 3x3 board, its eight lines and the win evaluator `checkWinner`. */
module Board {

  /** A square: empty (the string ""), the player's "X" or the computer's "O". */
  datatype Cell = Empty | X | O

  /** What a mover writes into a square; `currentPlayer` is always one of these. */
  type Mark = c: Cell | c != Empty witness X

  /** Nine squares, numbered row by row from 0 (top left) to 8 (bottom right). */
  type Board = b: seq<Cell> | |b| == 9 witness [Empty, Empty, Empty, Empty, Empty, Empty, Empty, Empty, Empty]

  /** The other side. */
  function Opponent(m: Mark): (r: Mark)
    ensures r != m
  {
    if m == X then O else X
  }

  /** `Array(9).fill("")`: the board a round starts with. */
  function EmptyBoard(): (b: Board)
    ensures forall i :: 0 <= i < 9 ==> b[i] == Empty
  {
    seq(9, _ => Empty)
  }

  // ---------------------------------------------------------------------------
  // Lines, defined geometrically (independently of the table the code uses)
  // ---------------------------------------------------------------------------

  /** A row or column number. */
  type Coord = k: int | 0 <= k < 3

  /** A straight line of three squares: a row, a column or one of the two diagonals. */
  datatype Line = Row(r: Coord) | Column(c: Coord) | Diagonal | AntiDiagonal

  /** The square at (row, column) is numbered 3 * row + column. */
  function Square(row: Coord, col: Coord): (i: nat)
    ensures i < 9
  {
    3 * row + col
  }

  /** The k-th square (k = 0, 1, 2) of line l, walking down or to the right. */
  function At(l: Line, k: Coord): (i: nat)
    ensures i < 9
  {
    match l
    case Row(r) => Square(r, k)
    case Column(c) => Square(k, c)
    case Diagonal => Square(k, k)
    case AntiDiagonal => Square(k, 2 - k)
  }

  /** Every square of line l holds mark m. */
  ghost predicate Owns(b: Board, l: Line, m: Mark) {
    forall k :: 0 <= k < 3 ==> b[At(l, k)] == m
  }

  /** Mark m has three in a line. */
  ghost predicate HasLineOf(b: Board, m: Mark) {
    exists l :: Owns(b, l, m)
  }

  /** Someone has three in a line. */
  ghost predicate HasLine(b: Board) {
    HasLineOf(b, X) || HasLineOf(b, O)
  }

  // ---------------------------------------------------------------------------
  // checkWinner
  // ---------------------------------------------------------------------------

  /** The eight winning index triples, in the order `checkWinner` tries them. */
  const WinPatterns: seq<(nat, nat, nat)> :=
    [(0, 1, 2), (3, 4, 5), (6, 7, 8), (0, 3, 6), (1, 4, 7), (2, 5, 8), (0, 4, 8), (2, 4, 6)]

  /** The test applied to one pattern: its first square is non-empty and the other two equal it.
      An index past the board reads `undefined`, which is falsy, so such a pattern never matches. */
  predicate Uniform(b: Board, t: (nat, nat, nat)) {
    t.0 < 9 && t.1 < 9 && t.2 < 9 &&
    b[t.0] != Empty && b[t.0] == b[t.1] && b[t.0] == b[t.2]
  }

  /** `checkWinner(currentBoard)`: some pattern of the table is uniform. It works on any board
      value, the live one or a look-ahead copy, and a value cannot be modified. */
  function CheckWinner(b: Board): (r: bool)
    ensures r <==> HasLine(b)
  {
    PatternsAreLines(b);
    exists j :: 0 <= j < |WinPatterns| && Uniform(b, WinPatterns[j])
  }

  /** The line that table entry j lists. */
  function PatternLine(j: int): (l: Line)
    requires 0 <= j < |WinPatterns|
    ensures WinPatterns[j] == (At(l, 0), At(l, 1), At(l, 2))
  {
    if j == 0 then Row(0) else if j == 1 then Row(1) else if j == 2 then Row(2)
    else if j == 3 then Column(0) else if j == 4 then Column(1) else if j == 5 then Column(2)
    else if j == 6 then Diagonal
    else AntiDiagonal
  }

  /** Where line l stands in the table: the table lists every line. */
  function PatternIndex(l: Line): (j: int)
    ensures 0 <= j < |WinPatterns| && PatternLine(j) == l
  {
    match l
    case Row(r) => if r == 0 then 0 else if r == 1 then 1 else 2
    case Column(c) => if c == 0 then 3 else if c == 1 then 4 else 5
    case Diagonal => 6
    case AntiDiagonal => 7
  }

  /** The table's test and the geometric definition agree on every board. */
  lemma PatternsAreLines(b: Board)
    ensures (exists j :: 0 <= j < |WinPatterns| && Uniform(b, WinPatterns[j])) <==> HasLine(b)
  {
    if j :| 0 <= j < |WinPatterns| && Uniform(b, WinPatterns[j]) {
      PatternIsLine(b, j);
    }
    if HasLine(b) {
      var m: Mark := if HasLineOf(b, X) then X else O;
      var l :| Owns(b, l, m);
      LineIsPattern(b, l, m);
    }
  }

  /** A uniform table entry is a line owned by the mark it holds. */
  lemma PatternIsLine(b: Board, j: int)
    requires 0 <= j < |WinPatterns| && Uniform(b, WinPatterns[j])
    ensures HasLine(b)
  {
    var l := PatternLine(j);
    var m: Mark := b[At(l, 0)];
    forall k | 0 <= k < 3
      ensures b[At(l, k)] == m
    {
      assert At(l, k) == if k == 0 then WinPatterns[j].0 else if k == 1 then WinPatterns[j].1 else WinPatterns[j].2;
    }
    assert Owns(b, l, m);
    assert HasLineOf(b, m);
  }

  /** A line owned by a mark is a uniform table entry. */
  lemma LineIsPattern(b: Board, l: Line, m: Mark)
    requires Owns(b, l, m)
    ensures Uniform(b, WinPatterns[PatternIndex(l)])
  {
  }

  /** A line of `other` that exists after m is written into square i already existed before. */
  lemma LineSurvivesMove(b: Board, i: nat, m: Mark, other: Mark)
    requires i < 9 && other != m
    ensures HasLineOf(b[i := m], other) ==> HasLineOf(b, other)
  {
    var after := b[i := m];
    if HasLineOf(after, other) {
      var l :| Owns(after, l, other);
      forall k | 0 <= k < 3
        ensures b[At(l, k)] == other
      {
        assert after[At(l, k)] == other;
      }
      assert Owns(b, l, other);
    }
  }

  /** On a board where nobody has a line, a move that creates one creates the mover's. */
  lemma NewLineIsMovers(b: Board, i: nat, m: Mark)
    requires i < 9 && !HasLine(b)
    ensures HasLine(b[i := m]) <==> HasLineOf(b[i := m], m)
    ensures !HasLineOf(b[i := m], Opponent(m))
  {
    LineSurvivesMove(b, i, m, Opponent(m));
  }

  // ---------------------------------------------------------------------------
  // Counting marks
  // ---------------------------------------------------------------------------

  /** How many squares of b hold c. */
  function Count(b: seq<Cell>, c: Cell): (n: nat)
    ensures n <= |b|
  {
    if b == [] then 0 else Count(b[..|b| - 1], c) + (if b[|b| - 1] == c then 1 else 0)
  }

  /** Writing m into an empty square adds one m and changes no other mark's count. */
  lemma {:induction false} CountAfterMove(b: seq<Cell>, i: nat, m: Mark, c: Mark)
    requires i < |b| && b[i] == Empty
    ensures Count(b[i := m], c) == Count(b, c) + (if c == m then 1 else 0)
  {
    var last := |b| - 1;
    if i == last {
      assert b[i := m][..last] == b[..last];
    } else {
      assert b[i := m][..last] == b[..last][i := m];
      CountAfterMove(b[..last], i, m, c);
    }
  }

  /** A sequence without c counts no c. */
  lemma {:induction false} CountAbsent(b: seq<Cell>, c: Cell)
    requires c !in b
    ensures Count(b, c) == 0
  {
    if b != [] {
      assert c !in b[..|b| - 1];
      CountAbsent(b[..|b| - 1], c);
    }
  }
}
