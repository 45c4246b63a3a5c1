# Tic-Tac-Toe engine

A model of the rules engine of the Swing Tic-Tac-Toe game in `TicTacToe.java`.
The window holds a 3x3 grid of buttons. Each button's text is `""`, `"X"` or `"O"`.
The window also holds the `currentPlayer` string and the `gameEnded` flag.
A click on a button runs the click handler:

- a click on an occupied button, or after the game has ended, does nothing;
- otherwise the button gets the current player's mark;
- if a row, column or diagonal now holds three equal marks, the game ends as a win for that player;
- otherwise, if no button is empty, the game ends as a tie;
- only when play goes on does the turn pass to the other player.

"Restart" (and "Play Again" in the game-over dialog) resets the grid, the player and the flag.

The project has three modules:

- `TicTacToeRules` (`Rules.dfy`) holds the values and the rules:
  - the values: `Player`, `Cell`, the 3x3 `Board`, the table `LINES` of the eight lines, and `State`;
  - the placement rule, as the function `Place` from one state to the next;
  - `Run`, the state after a sequence of clicks.
- `TicTacToeGame` (`Game.dfy`) holds the class `TicTacToe`:
  - its fields, as in the source: the grid is an `array2<Cell>`, plus `currentPlayer` and `gameEnded`;
  - the click handler, `checkForWin`, `isBoardFull` and `resetGame` as methods with the source's loops;
  - every method is proved against the functions of `TicTacToeRules`;
  - the click handler's postcondition says its new state and outcome are exactly `Place` of the old state.
- `TicTacToeProperties` (`Properties.dfy`) holds what the rule guarantees over whole games. Every state reachable from the start satisfies `Consistent`:
  - the game has ended exactly when a line is complete or the board is full;
  - every complete line belongs to the current player;
  - X has either as many marks as O or one more.

  The module also proves that marks persist and that an ended game ignores every click. It ends with complete games played click by click.

## Model

| member | source | states |
|---|---|---|
| TicTacToeRules.Write | TicTacToe.java:110 | the written cell holds the new content and every other cell is unchanged |
| TicTacToeRules.CheckThree | TicTacToe.java:158-160 | true exactly when the three cells all hold X or all hold O; three empty cells never count |
| TicTacToeRules.HasWinByScan | TicTacToe.java:145-156 | a line of the eight-line table is complete exactly when some row, some column or one of the two diagonals is, which is what checkForWin scans |
| TicTacToeRules.Other | TicTacToe.java:120 | the toggled player differs from the current one |
| TicTacToeRules.PlaceSpec | TicTacToe.java:105-122 | a click is rejected exactly when the game has ended or the cell is occupied, and then nothing changes; an accepted click writes the mover's mark into that cell and no other; the outcome is a win exactly when a line is complete afterwards, with the mover as winner; it is a tie exactly when no line is complete and the board is full; the game ends exactly on a win or a tie; the player toggles only when play goes on |
| TicTacToeGame.TicTacToe.constructor | TicTacToe.java:12-14 | a new game has nine empty cells, X to move and the game not ended |
| TicTacToeGame.TicTacToe.CheckForWin | TicTacToe.java:145-156 | the rows-then-columns-then-diagonals scan returns true exactly when some line of the table is complete |
| TicTacToeGame.TicTacToe.IsBoardFull | TicTacToe.java:162-171 | the scan returns true exactly when no cell is empty |
| TicTacToeGame.TicTacToe.PlaceMark | TicTacToe.java:105-122 | the grid, player and flag after the handler, and the outcome it reports, are those of the placement rule applied to the state before |
| TicTacToeGame.TicTacToe.ResetGame | TicTacToe.java:173-181 | afterwards every cell is empty, X is to move and the game has not ended |
| TicTacToeProperties.StartConsistent | TicTacToe.java:12-14 | the start state has no complete line, is not full and satisfies the game invariant |
| TicTacToeProperties.WriteCount | TicTacToe.java:110 | writing a mark into an empty cell adds one to that player's count and leaves the other player's count unchanged |
| TicTacToeProperties.NewLineIsMovers | TicTacToe.java:110-114 | a line completed by a click runs through the clicked cell and holds the mover's marks |
| TicTacToeProperties.WinnerIsMover | TicTacToe.java:111-114 | after a winning click in a consistent state, the reported winner is the mover, every complete line is the mover's, and no line is the other player's |
| TicTacToeProperties.PlaceConsistent | TicTacToe.java:105-122 | one click, accepted or not, keeps the game invariant |
| TicTacToeProperties.RunConsistent | TicTacToe.java:105-122 | any sequence of clicks keeps the game invariant |
| TicTacToeProperties.Reachable | TicTacToe.java:105-122 | every state reached from the start by clicks satisfies the game invariant, so at most one player ever holds a line and the counts of marks alternate |
| TicTacToeProperties.RunKeepsMarks | TicTacToe.java:107-110 | without a reset, a placed mark stays in its cell through any sequence of clicks |
| TicTacToeProperties.EndedIsFinal | TicTacToe.java:107-109 | once the game has ended, any sequence of clicks leaves the state unchanged |
| TicTacToeProperties.RunAppend | TicTacToe.java:105-122 | running two sequences of clicks one after the other is running their concatenation |
| TicTacToeProperties.TopRowScenario | TicTacToe.java:105-122 | X at (0,0), O at (1,1), X at (0,1), O at (2,2) leave play going with X to move; X at (0,2) then wins with the top row, X stays the current player, and a later click at (2,0) is rejected |
| TicTacToeProperties.ReadingOrderOpening | TicTacToe.java:105-122 | the first six clicks in reading order give alternating marks in the top two rows, no line, X to move |
| TicTacToeProperties.ReadingOrderEnding | TicTacToe.java:107-114 | from there, X at (2,0) wins on the anti-diagonal and the next two clicks are ignored |
| TicTacToeProperties.ReadingOrderScenario | TicTacToe.java:105-122 | clicking all nine cells in reading order ends with X winning after seven marks |
| TicTacToeProperties.WinOnFullBoardMiddle | TicTacToe.java:105-122 | from the six-click opening, X at (2,1) and O at (2,0) complete no line and leave only (2,2) empty |
| TicTacToeProperties.WinOnFullBoardEnding | TicTacToe.java:111-118 | the last click both completes the diagonal and fills the board, and it is reported as a win for X, not as a tie |
| TicTacToeProperties.WinOnFullBoardScenario | TicTacToe.java:105-122 | the eight clicks of that game from the start reach the position before the last click |
| TicTacToeProperties.TieOpening | TicTacToe.java:105-122 | X at (0,0), O at (0,1), X at (0,2), O at (1,1) leave play going with X to move |
| TicTacToeProperties.TieMiddle | TicTacToe.java:105-122 | X at (1,0), O at (1,2), X at (2,1), O at (2,0) complete no line and leave only (2,2) empty |
| TicTacToeProperties.TieEnding | TicTacToe.java:115-118 | X's click on the last cell fills the board as X,O,X / X,O,O / O,X,X with no line: a tie, and X stays the current player |
| TicTacToeProperties.TieScenario | TicTacToe.java:105-122 | the first eight clicks of the drawn game from the start reach the position before its last click |

The system's specification gives the drawn game as X,O,X / X,O,O / O,X,X, reached by the moves (0,0)X, (0,1)O, (0,2)X, (1,0)X, (1,1)O, (1,2)O, (2,0)O, (2,1)X, (2,2)X.
That order does not alternate, and the click handler always alternates.
The model follows the code: it reaches the same final board by the alternating order X (0,0), O (0,1), X (0,2), O (1,1), X (1,0), O (1,2), X (2,1), O (2,0), X (2,2).
The specification's cells in pure reading order would not give a draw: X wins on the anti-diagonal with the seventh click (`ReadingOrderScenario`).

## Left out

- The window itself is not modelled:
  - the constructor's window setup and the resize listeners (TicTacToe.java:22-56) are left out because they are GUI layout;
  - `setupMenu` (58-69) is left out: its Restart item calls `resetGame`, which is modelled as `ResetGame`; its Quit item ends the process;
  - `initializeButtons` (71-81) is left out except for its effect, nine empty cells, which is the modelled constructor's postcondition;
  - `updateFontSizes` (83-98) only sets fonts.
- Button identity is not modelled. The handler finds the clicked cell through the event's source button. The model passes the cell's row and column instead, and these are always in 0..2 because clicks come only from the nine buttons.
- Marks are `Player` values, not strings. The source only ever assigns `"X"` or `"O"` to `currentPlayer` (lines 13, 120 and 174), and button texts are `""` or the current player.
- `showGameOverDialog` (126-143) is left out because it is a modal dialog:
  - its "Play Again" choice is `ResetGame`;
  - its Quit choice or closing the dialog calls `System.exit`.
  - `PlaceMark` therefore ends in the state before the dialog: the game has ended and the player who moved is current. It reports the `Won`/`Tie` outcome that the dialog's message shows.
- `main` (185-192) only creates and shows the window. It is left out.
- `DisplayChecker.java` is not part of this model: it is a display-environment check outside the game rules.
- The specification describes `status()` and `currentPlayer()` queries. The source has no such methods. The model's state exposes the grid, the player and the flag directly, and `Place` returns the outcome of each click.
- The Swing event thread is not modelled. Clicks are taken one at a time, as that thread delivers them.
