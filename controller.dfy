/** The turn state machine: the module-level `gameBoard`, `currentPlayer`, `gameResult` and
    `gameHistory`, and the handlers that change them. Timers are not modelled as such: the
    computer's delayed move and the delayed round reset are separate method calls. */
module Controller {
  import opened Board
  import opened Strategy
  import opened History

  const PlayerWins := "Player wins!"
  const ComputerWins := "Computer wins!"
  const Tie := "It's a tie!"

  /** The label of a win, chosen by who `currentPlayer` is when the line is found. */
  function WinLabel(current: Mark): (outcome: string)
    ensures outcome == PlayerWins <==> current == X
    ensures outcome == ComputerWins <==> current == O
  {
    if current == X then PlayerWins else ComputerWins
  }

  /** `determineWinner`: the outcome label of a board, given whose turn it is. */
  function DetermineWinner(b: Board, current: Mark): (outcome: string)
    ensures outcome == "" || outcome == Tie || outcome == WinLabel(current)
  {
    var symbol := if current == X then "Player" else "Computer";
    if CheckWinner(b) then symbol + " wins!"
    else if Empty !in b then Tie
    else ""
  }

  /** The label names the side whose turn it is when someone has a line, the tie when the
      board is full without a line, and is empty while the round is open. */
  lemma DetermineWinnerClassifies(b: Board, current: Mark)
    ensures DetermineWinner(b, current) == "" <==> !HasLine(b) && Empty in b
    ensures DetermineWinner(b, current) == PlayerWins <==> HasLine(b) && current == X
    ensures DetermineWinner(b, current) == ComputerWins <==> HasLine(b) && current == O
    ensures DetermineWinner(b, current) == Tie <==> !HasLine(b) && Empty !in b
  {
  }

  /** Which of the words `endGame` looks for each label contains. */
  lemma LabelWords()
    ensures Includes(PlayerWins, "Player")
    ensures !Includes(ComputerWins, "Player") && Includes(ComputerWins, "Computer")
    ensures !Includes(Tie, "Player") && !Includes(Tie, "Computer")
    ensures !Includes("", "Player") && !Includes("", "Computer")
  {
    assert OccursAt(PlayerWins, "Player", 0);
    assert OccursAt(ComputerWins, "Computer", 0);
    assert 'P' !in ComputerWins by {
      assert ComputerWins == ['C', 'o', 'm', 'p', 'u', 't', 'e', 'r', ' ', 'w', 'i', 'n', 's', '!'];
    }
    assert 'P' !in Tie && 'C' !in Tie by {
      assert Tie == ['I', 't', '\'', 's', ' ', 'a', ' ', 't', 'i', 'e', '!'];
    }
    if Includes(ComputerWins, "Player") { IncludesFirstChar(ComputerWins, "Player"); }
    if Includes(Tie, "Player") { IncludesFirstChar(Tie, "Player"); }
    if Includes(Tie, "Computer") { IncludesFirstChar(Tie, "Computer"); }
  }

  /** `endGame` bumps the player's tally exactly for a player win, the computer's exactly for a
      computer win, and the tie count otherwise (which includes the in-progress label ""). */
  lemma EndGameTally(s: Session, b: Board, current: Mark, date: string)
    ensures var r := Record(s, Entry(date, DetermineWinner(b, current)));
      r.player == s.player + (if HasLine(b) && current == X then 1 else 0) &&
      r.computer == s.computer + (if HasLine(b) && current == O then 1 else 0) &&
      r.tie == s.tie + (if HasLine(b) then 0 else 1)
  {
    DetermineWinnerClassifies(b, current);
    LabelWords();
  }

  /** The game: the live board, whose turn it is, the outcome shown ("" while a round is in
      progress) and the session record. */
  class Game {
    var board: Board
    var current: Mark
    var result: string
    var session: Session

    /** The page load: an empty board, X to move, and the stored session, or a zeroed one when
        storage holds none. */
    constructor (stored: Option<Session>)
      ensures board == EmptyBoard() && current == X && result == ""
      ensures session == if stored.Some? then stored.value else NewSession()
      ensures Consistent()
    {
      board := EmptyBoard();
      current := X;
      result := "";
      session := if stored.Some? then stored.value else NewSession();
      new;
      EmptyBoardConsistent();
    }

    /** What a well-scheduled game keeps true: the outcome shown agrees with the board, the
        winner's mark owns a line, and X (who moves first) is one mark ahead of O exactly when
        X moved last. */
    ghost predicate Consistent()
      reads this
    {
      (result == "" || result == PlayerWins || result == ComputerWins || result == Tie) &&
      (result == "" ==> !HasLine(board) && Empty in board) &&
      (result == PlayerWins ==> current == X && HasLineOf(board, X) && !HasLineOf(board, O)) &&
      (result == ComputerWins ==> current == O && HasLineOf(board, O) && !HasLineOf(board, X)) &&
      (result == Tie ==> !HasLine(board) && Empty !in board) &&
      Count(board, X) == Count(board, O) + (if (current == X) == (result == "") then 0 else 1)
    }

    /** The effect of writing mark into square index and classifying the board (lines 48-60 for
        the player, 96-107 for the computer): a line ends the round under the mover's outcome, a
        full board ends it as a tie, and otherwise the turn passes. A finished round is
        recorded in the session with its outcome. */
    twostate predicate Placed(index: nat, mark: Mark, date: string)
      reads this
      requires index < 9
    {
      board == old(board)[index := mark] &&
      if HasLine(board) then
        current == old(current) && result == WinLabel(old(current)) &&
        session == Record(old(session), Entry(date, result))
      else if Empty !in board then
        current == old(current) && result == Tie &&
        session == Record(old(session), Entry(date, Tie))
      else
        current == Opponent(mark) && result == old(result) && session == old(session)
    }

    /** `handleCellClick`: a click on square index. It is ignored unless it is X's turn, the
        index names an empty square and no outcome is shown; otherwise X is written there. An
        index off the board reads `undefined`, which is not "", so such a click is ignored. */
    method HandleCellClick(index: int, date: string)
      modifies this
      ensures !(0 <= index < 9) || old(current) != X || old(board)[index] != Empty || old(result) != "" ==>
        unchanged(this)
      ensures 0 <= index < 9 && old(current) == X && old(board)[index] == Empty && old(result) == "" ==>
        Placed(index, X, date)
      ensures old(Consistent()) ==> Consistent()
    {
      if current != X || !(0 <= index < 9) || board[index] != Empty || result != "" {
        return;
      }
      ghost var before := board;
      board := board[index := current];
      if CheckWinner(board) {
        result := if current == X then PlayerWins else ComputerWins;
        EndGame(date);
      } else if Empty !in board {
        result := Tie;
        EndGame(date);
      } else {
        current := O;
      }
      DetermineWinnerClassifies(board, current);
      if old(Consistent()) {
        NewLineIsMovers(before, index, X);
        CountAfterMove(before, index, X, X);
        CountAfterMove(before, index, X, O);
      }
    }

    /** `computerMove`, when its timer fires: play the computer's own winning square, else the
        square that blocks X, else the empty square at position r of the empty-square list (r
        stands for the random draw). It checks neither the turn nor the outcome. */
    method ComputerMove(r: nat, date: string)
      requires EmptyCells(board) != [] ==> r < |EmptyCells(board)|
      modifies this
      ensures var c := ComputerChoice(old(board), r);
        (c == -1 ==> unchanged(this)) && (c != -1 ==> Placed(c, O, date))
      ensures old(Consistent()) && old(current) == O && old(result) == "" ==> Consistent()
    {
      var emptyCells := EmptyCells(board);
      var winningMove := FindWinningMove(board, O);
      var blockingMove := FindWinningMove(board, X);
      if winningMove != -1 {
        MakeMove(winningMove, date);
      } else if blockingMove != -1 {
        MakeMove(blockingMove, date);
      } else if |emptyCells| > 0 {
        assert emptyCells[r] in emptyCells;
        MakeMove(emptyCells[r], date);
      }
    }

    /** `makeMove`: write O into square index and classify the board. The label of a win
        follows `currentPlayer`, which is O whenever the computer's move was scheduled by a
        player move. */
    method MakeMove(index: nat, date: string)
      requires index < 9
      modifies this
      ensures Placed(index, O, date)
      ensures old(Consistent()) && old(current) == O && old(result) == "" && old(board)[index] == Empty ==>
        Consistent()
    {
      ghost var before := board;
      board := board[index := O];
      if CheckWinner(board) {
        result := if current == X then PlayerWins else ComputerWins;
        EndGame(date);
      } else if Empty !in board {
        result := Tie;
        EndGame(date);
      } else {
        current := X;
      }
      DetermineWinnerClassifies(board, current);
      if old(Consistent()) && old(current) == O && old(result) == "" && before[index] == Empty {
        NewLineIsMovers(before, index, O);
        CountAfterMove(before, index, O, X);
        CountAfterMove(before, index, O, O);
      }
    }

    /** `endGame`, without the storage write and the delayed redraw: label the round with
        `determineWinner`, bump the tally the label names, put the entry at the front of the
        history and drop the oldest entry beyond Cap. */
    method EndGame(date: string)
      modifies this`session
      ensures session == Record(old(session), Entry(date, DetermineWinner(board, current)))
    {
      var resultEntry := Entry(date, DetermineWinner(board, current));
      if Includes(resultEntry.winner, "Player") {
        session := session.(player := session.player + 1);
      } else if Includes(resultEntry.winner, "Computer") {
        session := session.(computer := session.computer + 1);
      } else {
        session := session.(tie := session.tie + 1);
      }
      assert session == Tallied(old(session), resultEntry.winner);
      var history := [resultEntry] + session.history;
      if |history| > Cap {
        history := history[..|history| - 1];
      }
      assert history == Prepended(old(session).history, resultEntry);
      session := session.(history := history);
    }

    /** `resetGame`: a fresh round; the session is kept. */
    method ResetGame()
      modifies this`board, this`current, this`result
      ensures board == EmptyBoard() && current == X && result == ""
      ensures Consistent()
    {
      board := EmptyBoard();
      current := X;
      result := "";
      EmptyBoardConsistent();
    }

    /** `startNewGame`: zero the tallies, empty the history and start a fresh round. */
    method StartNewGame()
      modifies this
      ensures session == NewSession()
      ensures board == EmptyBoard() && current == X && result == ""
      ensures Consistent()
    {
      session := NewSession();
      ResetGame();
    }

    /** The state right after a reset is consistent. */
    lemma EmptyBoardConsistent()
      requires board == EmptyBoard() && current == X && result == ""
      ensures Consistent()
    {
      forall l: Line
        ensures !Owns(board, l, X) && !Owns(board, l, O)
      {
        assert board[At(l, 0)] == Empty;
      }
      assert board[0] == Empty;
      CountAbsent(board, X);
      CountAbsent(board, O);
    }
  }
}
