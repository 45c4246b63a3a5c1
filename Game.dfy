/** The engine object of the TicTacToe window: the 3x3 grid of marks that
    the source keeps as button texts, the current player and the gameEnded
    flag, with the click handler, the two scans over the grid and the
    reset. Every method is proved against the functions of TicTacToeRules. */
module TicTacToeGame {
  import opened TicTacToeRules

  class TicTacToe {
    /** The mark shown on each button, indexed [row, column]. */
    var board: array2<Cell>
    var currentPlayer: Player
    var gameEnded: bool

    ghost predicate Valid()
      reads this
    {
      board.Length0 == 3 && board.Length1 == 3
    }

    /** The grid as a value. */
    ghost function Cells(): (b: Board)
      reads this, board
      requires Valid()
      ensures forall q: Pos :: At(b, q) == board[q.row, q.col]
    {
      [[board[0, 0], board[0, 1], board[0, 2]],
       [board[1, 0], board[1, 1], board[1, 2]],
       [board[2, 0], board[2, 1], board[2, 2]]]
    }

    /** The whole engine state as a value. */
    ghost function Snapshot(): State
      reads this, board
      requires Valid()
    {
      State(Cells(), currentPlayer, gameEnded)
    }

    /** A new game: nine empty buttons, X to move, not ended. */
    constructor ()
      ensures Valid() && fresh(board)
      ensures Snapshot() == START
    {
      board := new Cell[3, 3]((_, _) => Empty);
      currentPlayer := X;
      gameEnded := false;
      new;
      BoardsEqual(Cells(), EMPTY_BOARD);
    }

    /** checkForWin: scans the rows, then the columns, then both diagonals,
        and stops at the first complete line. */
    method CheckForWin() returns (won: bool)
      requires Valid()
      ensures won == HasWin(Cells())
    {
      ghost var b := Cells();
      HasWinByScan(b);
      for i := 0 to 3
        invariant forall r: Coord :: r < i ==> !RowComplete(b, r)
      {
        if CheckThree(board[i, 0], board[i, 1], board[i, 2]) {
          assert RowComplete(b, i);
          return true;
        }
      }
      for i := 0 to 3
        invariant forall c: Coord :: c < i ==> !ColumnComplete(b, c)
      {
        if CheckThree(board[0, i], board[1, i], board[2, i]) {
          assert ColumnComplete(b, i);
          return true;
        }
      }
      if CheckThree(board[0, 0], board[1, 1], board[2, 2]) || CheckThree(board[0, 2], board[1, 1], board[2, 0]) {
        return true;
      }
      return false;
    }

    /** isBoardFull: false at the first empty button, true if there is none. */
    method IsBoardFull() returns (full: bool)
      requires Valid()
      ensures full == IsFull(Cells())
    {
      ghost var b := Cells();
      for i := 0 to 3
        invariant forall q: Pos :: q.row < i ==> At(b, q) != Empty
      {
        for j := 0 to 3
          invariant forall q: Pos :: (q.row < i || (q.row == i && q.col < j)) ==> At(b, q) != Empty
        {
          if board[i, j] == Empty {
            assert At(b, Pos(i, j)) == Empty;
            return false;
          }
        }
      }
      return true;
    }

    /** The click handler on the button at (row, col). The source's clicks
        come only from the nine buttons, hence the Coord indices. */
    method PlaceMark(row: Coord, col: Coord) returns (outcome: Outcome)
      requires Valid()
      modifies this`currentPlayer, this`gameEnded, board
      ensures Valid()
      ensures Move(Snapshot(), outcome) == Place(old(Snapshot()), Pos(row, col))
    {
      if gameEnded || board[row, col] != Empty {
        return Rejected;
      }
      ghost var before := Cells();
      board[row, col] := Mark(currentPlayer);
      BoardsEqual(Cells(), Write(before, Pos(row, col), Mark(currentPlayer)));
      var won := CheckForWin();
      if won {
        gameEnded := true;
        outcome := Won(currentPlayer);
      } else {
        var full := IsBoardFull();
        if full {
          gameEnded := true;
          outcome := Tie;
        } else {
          currentPlayer := if currentPlayer == X then O else X;
          outcome := Continue;
        }
      }
    }

    /** resetGame: X to move, not ended, and every button cleared. */
    method ResetGame()
      requires Valid()
      modifies this`currentPlayer, this`gameEnded, board
      ensures Valid()
      ensures Snapshot() == START
    {
      currentPlayer := X;
      gameEnded := false;
      for i := 0 to 3
        invariant currentPlayer == X && !gameEnded
        invariant forall r, c | 0 <= r < i && 0 <= c < 3 :: board[r, c] == Empty
      {
        for j := 0 to 3
          invariant currentPlayer == X && !gameEnded
          invariant forall r, c | 0 <= r < 3 && 0 <= c < 3 && (r < i || (r == i && c < j)) :: board[r, c] == Empty
        {
          board[i, j] := Empty;
        }
      }
      BoardsEqual(Cells(), EMPTY_BOARD);
    }
  }
}
