/** The rules of the Tic-Tac-Toe engine as values: marks, the 3x3 board,
    the eight winning lines, and the placement rule as a function from one
    game state to the next. The class in Game.dfy runs the same rules on a
    mutable grid and is proved to agree with the functions here. */
module TicTacToeRules {

  /** The player whose mark is placed; the source keeps it as the string "X" or "O". */
  datatype Player = X | O

  /** The content of one cell; the source keeps it as the button text "", "X" or "O". */
  datatype Cell = Empty | Mark(player: Player)

  /** A row or column index of the 3x3 grid. */
  type Coord = k: int | 0 <= k < 3

  /** The position of one cell. */
  datatype Pos = Pos(row: Coord, col: Coord)

  /** A 3x3 grid, indexed by row and then by column. */
  type Board = b: seq<seq<Cell>> | |b| == 3 && forall r | 0 <= r < 3 :: |b[r]| == 3
    witness [[Empty, Empty, Empty], [Empty, Empty, Empty], [Empty, Empty, Empty]]

  function At(b: Board, p: Pos): Cell {
    b[p.row][p.col]
  }

  const EMPTY_BOARD: Board := [[Empty, Empty, Empty], [Empty, Empty, Empty], [Empty, Empty, Empty]]

  /** Two boards are equal when every cell is. */
  lemma BoardsEqual(a: Board, b: Board)
    requires forall q: Pos :: At(a, q) == At(b, q)
    ensures a == b
  {
    forall r: Coord
      ensures a[r] == b[r]
    {
      assert At(a, Pos(r, 0)) == At(b, Pos(r, 0));
      assert At(a, Pos(r, 1)) == At(b, Pos(r, 1));
      assert At(a, Pos(r, 2)) == At(b, Pos(r, 2));
    }
  }

  /** The board with cell `p` set to `c`. */
  function Write(b: Board, p: Pos, c: Cell): (b': Board)
    ensures forall q: Pos {:trigger At(b', q)} :: At(b', q) == if q == p then c else At(b, q)
  {
    b[p.row := b[p.row][p.col := c]]
  }

  /** checkThree: three cells that hold the same player's mark. */
  predicate CheckThree(a: Cell, b: Cell, c: Cell)
    ensures CheckThree(a, b, c) <==>
      (a == Mark(X) && b == Mark(X) && c == Mark(X)) || (a == Mark(O) && b == Mark(O) && c == Mark(O))
  {
    assert a.Mark? ==> a.player.X? || a.player.O?;
    a != Empty && a == b && b == c
  }

  /** A line is three cells in a row, a column or a diagonal. */
  datatype Line = Line(first: Pos, second: Pos, third: Pos) {
    predicate Contains(p: Pos) {
      p == first || p == second || p == third
    }
  }

  /** The table of the eight lines: three rows, three columns, the diagonal
      and the anti-diagonal, in the order checkForWin visits them. */
  const LINES: seq<Line> := [
    Line(Pos(0, 0), Pos(0, 1), Pos(0, 2)),
    Line(Pos(1, 0), Pos(1, 1), Pos(1, 2)),
    Line(Pos(2, 0), Pos(2, 1), Pos(2, 2)),
    Line(Pos(0, 0), Pos(1, 0), Pos(2, 0)),
    Line(Pos(0, 1), Pos(1, 1), Pos(2, 1)),
    Line(Pos(0, 2), Pos(1, 2), Pos(2, 2)),
    Line(Pos(0, 0), Pos(1, 1), Pos(2, 2)),
    Line(Pos(0, 2), Pos(1, 1), Pos(2, 0))
  ]

  ghost predicate Complete(b: Board, l: Line) {
    CheckThree(At(b, l.first), At(b, l.second), At(b, l.third))
  }

  /** Line `l` holds three marks of player `p`. */
  ghost predicate Owns(b: Board, l: Line, p: Player) {
    At(b, l.first) == Mark(p) && At(b, l.second) == Mark(p) && At(b, l.third) == Mark(p)
  }

  /** Some line of the table is complete. */
  ghost predicate HasWin(b: Board) {
    exists k | 0 <= k < |LINES| :: Complete(b, LINES[k])
  }

  /** No cell is empty. */
  ghost predicate IsFull(b: Board) {
    forall q: Pos :: At(b, q) != Empty
  }

  /** HasWin with the table written out, line by line. */
  lemma HasWinUnrolled(b: Board)
    ensures HasWin(b) <==>
      Complete(b, LINES[0]) || Complete(b, LINES[1]) || Complete(b, LINES[2]) || Complete(b, LINES[3]) ||
      Complete(b, LINES[4]) || Complete(b, LINES[5]) || Complete(b, LINES[6]) || Complete(b, LINES[7])
  {
    if HasWin(b) {
      var k :| 0 <= k < |LINES| && Complete(b, LINES[k]);
      assert k in {0, 1, 2, 3, 4, 5, 6, 7};
    }
  }

  /** The rows, columns and diagonals that checkForWin scans, written out
      without the table. */
  predicate RowComplete(b: Board, r: Coord) {
    CheckThree(b[r][0], b[r][1], b[r][2])
  }

  predicate ColumnComplete(b: Board, c: Coord) {
    CheckThree(b[0][c], b[1][c], b[2][c])
  }

  predicate DiagonalsComplete(b: Board) {
    CheckThree(b[0][0], b[1][1], b[2][2]) || CheckThree(b[0][2], b[1][1], b[2][0])
  }

  /** The table of lines and the row/column/diagonal scan agree. */
  lemma HasWinByScan(b: Board)
    ensures HasWin(b) <==>
      (exists r: Coord :: RowComplete(b, r)) ||
      (exists c: Coord :: ColumnComplete(b, c)) ||
      DiagonalsComplete(b)
  {
    if HasWin(b) {
      var k :| 0 <= k < |LINES| && Complete(b, LINES[k]);
      if k < 3 {
        assert RowComplete(b, k);
      } else if k < 6 {
        assert ColumnComplete(b, k - 3);
      }
    }
    if exists r: Coord :: RowComplete(b, r) {
      var r: Coord :| RowComplete(b, r);
      assert Complete(b, LINES[r]);
    } else if exists c: Coord :: ColumnComplete(b, c) {
      var c: Coord :| ColumnComplete(b, c);
      assert Complete(b, LINES[c + 3]);
    } else if CheckThree(b[0][0], b[1][1], b[2][2]) {
      assert Complete(b, LINES[6]);
    } else if CheckThree(b[0][2], b[1][1], b[2][0]) {
      assert Complete(b, LINES[7]);
    }
  }

  function Other(p: Player): (q: Player)
    ensures q != p
  {
    if p == X then O else X
  }

  /** How many cells hold `c`. */
  ghost function Count(b: Board, c: Cell): nat {
    multiset(b[0])[c] + multiset(b[1])[c] + multiset(b[2])[c]
  }

  /** The engine's state: the grid, the player to move, and the gameEnded flag. */
  datatype State = State(board: Board, current: Player, ended: bool)

  /** The state built at start-up and restored by resetGame. */
  const START: State := State(EMPTY_BOARD, X, false)

  /** What a click leads to: ignored, play goes on, a win (the source's
      "Player X wins!") or a tie ("It's a tie!"). */
  datatype Outcome = Rejected | Continue | Won(winner: Player) | Tie

  datatype Move = Move(next: State, outcome: Outcome)

  /** The placement rule of the click handler: a click on an occupied cell
      or after the game has ended is ignored; otherwise the current player's
      mark is written, a completed line ends the game as a win (checked
      before the board-full test), a full board ends it as a tie, and
      only when play goes on does the turn pass to the other player. */
  ghost function Place(s: State, p: Pos): Move {
    if s.ended || At(s.board, p) != Empty then
      Move(s, Rejected)
    else
      var b := Write(s.board, p, Mark(s.current));
      if HasWin(b) then
        Move(State(b, s.current, true), Won(s.current))
      else if IsFull(b) then
        Move(State(b, s.current, true), Tie)
      else
        Move(State(b, Other(s.current), false), Continue)
  }

  /** What one click does, outcome by outcome. */
  lemma PlaceSpec(s: State, p: Pos)
    ensures Place(s, p).outcome == Rejected <==> s.ended || At(s.board, p) != Empty
    ensures Place(s, p).outcome == Rejected ==> Place(s, p).next == s
    ensures Place(s, p).outcome != Rejected ==>
      At(Place(s, p).next.board, p) == Mark(s.current) &&
      forall q: Pos {:trigger At(Place(s, p).next.board, q)} :: q != p ==> At(Place(s, p).next.board, q) == At(s.board, q)
    ensures forall q: Pos {:trigger At(Place(s, p).next.board, q)} :: At(s.board, q) != Empty ==> At(Place(s, p).next.board, q) == At(s.board, q)
    ensures Place(s, p).outcome.Won? <==> Place(s, p).outcome != Rejected && HasWin(Place(s, p).next.board)
    ensures Place(s, p).outcome.Won? ==> Place(s, p).outcome.winner == s.current
    ensures Place(s, p).outcome == Tie <==> Place(s, p).outcome != Rejected && !HasWin(Place(s, p).next.board) && IsFull(Place(s, p).next.board)
    ensures Place(s, p).next.ended <==> s.ended || Place(s, p).outcome.Won? || Place(s, p).outcome == Tie
    ensures Place(s, p).next.current == if Place(s, p).outcome == Continue then Other(s.current) else s.current
  {
  }

  /** The state after a sequence of clicks, with no reset in between. */
  ghost function Run(s: State, clicks: seq<Pos>): State
    decreases |clicks|
  {
    if clicks == [] then s else Run(Place(s, clicks[0]).next, clicks[1..])
  }
}
