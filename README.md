# Tic-tac-toe against a rule-based computer: a Dafny model of the game logic

The modelled program is a browser tic-tac-toe game. The player is "X" and always moves first.
The computer is "O". After each player move it replies with a one-ply strategy: it completes
its own line if it can, blocks the player's line if it must, and otherwise plays a random empty
square. Finished rounds are tallied (player wins, computer wins, ties) and kept in a history of at
most ten entries, newest first. All of the game logic lives in `tic.js`; the rest of that file
draws the page.

The model has four modules, one per part of that logic:

- `Board` (board.dfy) holds the cells, the board and `checkWinner`. `HasLine` is a reference
  definition of "someone has three in a line". It defines rows, columns and diagonals by their
  coordinates and does not use the code's table. `CheckWinner` runs over the code's literal
  table of eight index triples and is proved equal to `HasLine`. A move onto a board without a
  line can only create a line for the mover. Writing a mark adds exactly one to that mark's count.
- `Strategy` (strategy.dfy) holds the empty-square list, `findWinningMove` and the square
  `computerMove` picks. `ComputerChoice` states the priority order: own win, then block, then
  the randomly drawn empty square. Each of the first two is the lowest such square.
- `History` (history.dfy) holds the session record and `String.prototype.includes`, which
  `endGame` uses to choose the tally to bump. It also holds the update `endGame` makes: one
  tally bumped, the entry put at the front, and the oldest entry dropped beyond ten.
  `PlayKeepsNewest` covers any number of rounds: the history is always the newest rounds,
  newest first, cut to ten.
- `Controller` (controller.dfy) holds `determineWinner` and the class `Game`. Its fields are the
  program's module-level variables `gameBoard`, `currentPlayer`, `gameResult` and
  `gameHistory`. Its methods are the click handler, the computer's move, `makeMove`, `endGame`,
  `resetGame` and `startNewGame`.
  - The twostate predicate `Placed` states the full effect of writing a mark and classifying
    the board. A line ends the round with the label of the side whose turn it is. A full board
    ends it as a tie. Otherwise the turn passes. A finished round is recorded in the session.
  - `Consistent()` is the invariant of a well-scheduled game. The outcome shown agrees with the
    board, and the winner owns a line. X has one more mark than O exactly when X moved last.
    The click handler preserves it. The constructor, `ResetGame` and `StartNewGame` establish
    it. The computer's move preserves it when it is O's turn and the round is open. `makeMove`
    preserves it under the same conditions when the square it writes is empty.

The delays in the program become separate calls: the computer's move one second after a player
move, and the round reset half a second after a round ends. The random draw is the parameter `r`
of `ComputerMove`: a position in the empty-square list. The date of a finished round is an
opaque string parameter.

Where the code differs from the game's intended design, the model follows the code:

- `computerMove` (tic.js:63-80) checks neither whose turn it is nor whether the round is over.
  Suppose a computer move is scheduled and the player starts a new session before it fires.
  The move still plays an O on the fresh board, and the turn stays with X. `ComputerMove` has
  the same behaviour: its contract covers every state. This is also why its `Consistent()`
  clause is conditional.
- `makeMove` takes the label of a win from `currentPlayer` (tic.js:100), not from the mark it
  wrote. `Placed` does the same: it uses `WinLabel(old(current))`.
- The stored session is read with `JSON.parse` and no error handling (tic.js:12). Malformed
  storage throws; it does not fall back to a zeroed record. The constructor takes the stored
  record as an `Option<Session>`, where `None` stands for an absent key.
- `endGame` counts every label that names neither side as a tie, including the in-progress
  label "". `EndGameTally` states this as it is.

## Model

| member | source | states |
|---|---|---|
| `Board.EmptyBoard` | tic.js:197 | the board of a new round has all nine squares empty |
| `Board.CheckWinner` | tic.js:152-175 | true exactly when some row, column or diagonal holds three equal non-empty marks, on any board value (live or a look-ahead copy) |
| `Board.PatternsAreLines` | tic.js:153-172 | the code's eight-triple table and the geometric lines agree: a table entry is uniform on a board exactly when some line is owned by one mark |
| `Board.NewLineIsMovers` | tic.js:51-52 | on a board without a line, writing m makes a line exactly when it makes a line of m; it never makes the opponent's |
| `Board.CountAfterMove` | tic.js:48 | writing m into an empty square raises m's count by one and leaves the other mark's count unchanged |
| `Strategy.EmptyCells` | tic.js:64-67 | the list holds exactly the empty squares, in increasing order, and is empty exactly when the board is full |
| `Strategy.FindWinningMoveFrom` | tic.js:83-92 | from square k on, returns the first empty square whose trial board has a line, or -1 when none from k on does |
| `Strategy.FindWinningMove` | tic.js:82-93 | -1 exactly when no empty square completes a line for m; otherwise the lowest such square, which is empty |
| `Strategy.ComputerChoice` | tic.js:63-80 | -1 exactly when the board is full; otherwise an empty square; the lowest winning square for O if there is one; else the lowest square where X would win; else the empty square at the drawn position |
| `Strategy.TopRowThreatMoves` | tic.js:69-70 | with two X's in the top row and nothing else, O has no winning square and X's first winning square is 2 |
| `Strategy.BlocksTopRow` | tic.js:72-75 | on that board the computer blocks at square 2, whatever the random draw |
| `History.NewSession` | tic.js:12-17 | the zeroed record: every tally is 0 and the history is empty |
| `History.Includes` | tic.js:117-119 | `includes` is true exactly when the part occurs as a contiguous substring |
| `History.Tallied` | tic.js:117-123 | exactly one tally rises by one: the player's if the label contains "Player", else the computer's if it contains "Computer", else the tie count |
| `History.Prepended` | tic.js:125-129 | the new entry comes first, followed by the previous entries; the oldest is dropped when the length would exceed ten |
| `History.Record` | tic.js:117-129 | one more round in the tallies, no tally falls, the entry comes first, the rest is a prefix of the old history, and a history of at most ten stays at most ten |
| `History.PlayKeepsNewest` | tic.js:125-129 | from a history of at most ten, after any rounds the history is the newest rounds, newest first, followed by the older history, cut to ten; the tallies grow by the number of rounds |
| `Controller.WinLabel` | tic.js:52 | "Player wins!" exactly when it is X's turn, "Computer wins!" exactly when it is O's |
| `Controller.DetermineWinner` | tic.js:140-150 | the label is "", the tie label or the win label of the side whose turn it is; `DetermineWinnerClassifies` says which one applies |
| `Controller.DetermineWinnerClassifies` | tic.js:140-150 | the label is the side whose turn it is when there is a line, "It's a tie!" for a full board without a line, and "" while the round is open |
| `Controller.LabelWords` | tic.js:117-119 | "Player wins!" contains "Player"; "Computer wins!" contains "Computer" but not "Player"; the tie label and "" contain neither |
| `Controller.EndGameTally` | tic.js:114-123 | the player's tally rises exactly on a player win, the computer's exactly on a computer win, the tie count otherwise |
| `Controller.Game.constructor` | tic.js:9-17 | empty board, X to move, no outcome; the stored session or a zeroed one; consistent |
| `Controller.Game.HandleCellClick` | tic.js:41-61 | no change unless X is to move, the index is an empty square and no outcome is shown; otherwise X is written there, and a line, a full board or the turn passing to O follows as `Placed` states; consistency is preserved |
| `Controller.Game.ComputerMove` | tic.js:63-80 | no change on a full board; otherwise O is written on the square `ComputerChoice` picks, with `Placed`'s classification; consistency is preserved when it is O's turn in an open round |
| `Controller.Game.MakeMove` | tic.js:95-108 | only square index changes, to O; a line gives the label of the side whose turn it is, a full board a tie, otherwise the turn returns to X; consistency is preserved for a move onto an empty square on O's turn |
| `Controller.Game.EndGame` | tic.js:110-131 | the session becomes the old one with the `determineWinner` entry recorded; board, turn and outcome are untouched |
| `Controller.Game.ResetGame` | tic.js:196-202 | empty board, X to move, no outcome; the session is untouched; consistent |
| `Controller.Game.StartNewGame` | tic.js:204-213 | zeroed tallies and empty history, plus everything `ResetGame` does |
| `Controller.Game.EmptyBoardConsistent` | tic.js:196-199 | the state after a reset satisfies the game invariant |

## Left out

- Drawing the page: `init`, `createBoard`, `updateResults`, `displayHistory`, the cell texts and the event listeners (tic.js:2-7, 19-39, 49, 97, 177-194, 200-201, 209-212). They only present state.
- Browser storage: reading and writing the session with `localStorage` and `JSON` (tic.js:12-17, 131, 206). The loaded session is a constructor parameter. The save after every change is not modelled.
- Timers: `setTimeout` (tic.js:59, 133-137). The delayed computer move and the delayed redraw and reset are separate calls (`ComputerMove`, `ResetGame`), which a caller may make in any order.
- `Math.random` (tic.js:77): the draw is the parameter `r`, a position in the empty-square list.
- `new Date().toLocaleString()` (tic.js:111-113): the date is an opaque string parameter.
- The click event (tic.js:42): the index read from `dataset.index` is an integer parameter. An index off the board is ignored, as in the code.
