/** The computer's one-ply strategy: the empty-square list, `findWinningMove`, and the
    square `computerMove` chooses. */
module Strategy {
  import opened Board

  /** Writing m into square i is legal (the square is empty) and leaves someone with a line. */
  ghost predicate Completes(b: Board, i: int, m: Mark) {
    0 <= i < 9 && b[i] == Empty && HasLine(b[i := m])
  }

  /** The `reduce` at the head of `computerMove`, over the first n squares: the indices of the
      empty ones, collected left to right. */
  function EmptyCellsBefore(b: Board, n: nat): (cells: seq<nat>)
    requires n <= 9
    ensures forall i :: i in cells ==> i < n && b[i] == Empty
    ensures forall i :: 0 <= i < n && b[i] == Empty ==> i in cells
    ensures forall p, q :: 0 <= p < q < |cells| ==> cells[p] < cells[q]
  {
    if n == 0 then []
    else
      var before := EmptyCellsBefore(b, n - 1);
      assert forall p :: 0 <= p < |before| ==> before[p] in before;
      before + (if b[n - 1] == Empty then [n - 1] else [])
  }

  /** The empty squares of b in increasing order; empty exactly when the board is full. */
  function EmptyCells(b: Board): (cells: seq<nat>)
    ensures forall i :: i in cells ==> i < 9 && b[i] == Empty
    ensures forall i :: 0 <= i < 9 && b[i] == Empty ==> i in cells
    ensures forall p, q :: 0 <= p < q < |cells| ==> cells[p] < cells[q]
    ensures cells == [] <==> Empty !in b
  {
    var cells := EmptyCellsBefore(b, 9);
    assert Empty in b ==> b[IndexOfEmpty(b)] == Empty && IndexOfEmpty(b) in cells;
    assert cells != [] ==> b[cells[0]] == Empty;
    cells
  }

  /** Some empty square of a board that has one. */
  ghost function IndexOfEmpty(b: Board): (i: nat)
    requires Empty in b
    ensures i < 9 && b[i] == Empty
  {
    var i :| 0 <= i < 9 && b[i] == Empty; i
  }

  /** The loop of `findWinningMove`, from square k on: the first empty square whose trial copy
      passes `checkWinner`, or -1. */
  function FindWinningMoveFrom(b: Board, m: Mark, k: nat): (i: int)
    requires k <= 9
    ensures i == -1 || (k <= i < 9 && Completes(b, i, m))
    ensures forall j :: k <= j < 9 && (i == -1 || j < i) ==> !Completes(b, j, m)
    decreases 9 - k
  {
    if k == 9 then -1
    else if b[k] == Empty && CheckWinner(b[k := m]) then k
    else FindWinningMoveFrom(b, m, k + 1)
  }

  /** `findWinningMove(m)`: the lowest square that completes a line when m is written there,
      or -1 when there is none. Only a copy of the board is written. */
  function FindWinningMove(b: Board, m: Mark): (i: int)
    ensures -1 <= i < 9
    ensures i == -1 <==> forall j :: 0 <= j < 9 ==> !Completes(b, j, m)
    ensures i != -1 ==> b[i] == Empty && HasLine(b[i := m])
    ensures forall j :: 0 <= j < i ==> !Completes(b, j, m)
  {
    FindWinningMoveFrom(b, m, 0)
  }

  /** The square `computerMove` plays on board b when the random draw selects position r of
      the empty-square list; -1 when it plays nothing. */
  function ComputerChoice(b: Board, r: nat): (c: int)
    requires EmptyCells(b) != [] ==> r < |EmptyCells(b)|
    ensures c == -1 <==> Empty !in b
    ensures c != -1 ==> 0 <= c < 9 && b[c] == Empty
    ensures (exists i :: Completes(b, i, O)) ==>
      Completes(b, c, O) && forall j :: 0 <= j < c ==> !Completes(b, j, O)
    ensures (forall i :: !Completes(b, i, O)) && (exists i :: Completes(b, i, X)) ==>
      Completes(b, c, X) && forall j :: 0 <= j < c ==> !Completes(b, j, X)
    ensures (forall i :: !Completes(b, i, O) && !Completes(b, i, X)) && c != -1 ==>
      c == EmptyCells(b)[r]
  {
    var emptyCells := EmptyCells(b);
    var winningMove := FindWinningMove(b, O);
    var blockingMove := FindWinningMove(b, X);
    if winningMove != -1 then winningMove
    else if blockingMove != -1 then blockingMove
    else if |emptyCells| > 0 then
      assert emptyCells[r] in emptyCells;
      emptyCells[r]
    else -1
  }

  /** The board of the blocking example: two X's in the top row and nothing else. */
  const TopRowThreat: Board := [X, X, Empty, Empty, Empty, Empty, Empty, Empty, Empty]

  /** No O written into an empty square of TopRowThreat makes a line. */
  lemma TopRowThreatNoWinFor(i: int)
    requires 2 <= i < 9
    ensures !CheckWinner(TopRowThreat[i := O])
  {
  }

  /** On TopRowThreat the computer has no winning square, and X's first winning square is 2. */
  lemma TopRowThreatMoves()
    ensures FindWinningMove(TopRowThreat, O) == -1
    ensures FindWinningMove(TopRowThreat, X) == 2
  {
    var b := TopRowThreat;
    forall i | 0 <= i < 9
      ensures !Completes(b, i, O)
    {
      if b[i] == Empty {
        TopRowThreatNoWinFor(i);
      }
    }
    assert Uniform(b[2 := X], WinPatterns[0]);
    assert CheckWinner(b[2 := X]);
  }

  /** With two X's in the top row and nothing else, the computer cannot win and must block at 2,
      whatever the random draw. */
  lemma BlocksTopRow()
    ensures forall r: nat :: (EmptyCells(TopRowThreat) != [] ==> r < |EmptyCells(TopRowThreat)|) ==>
      ComputerChoice(TopRowThreat, r) == 2
  {
    TopRowThreatMoves();
  }
}
