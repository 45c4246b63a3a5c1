/** Properties of the placement rule over whole games: the invariant every
    reachable state keeps, marks never disappear, an ended game accepts no
    click, and a few complete games played click by click. */
module TicTacToeProperties {
  import opened TicTacToeRules

  /** What holds in every state reachable from the start by clicks:
      the game has ended exactly when a line is complete or the board is
      full; every complete line belongs to the current player, who is
      therefore the player the win message names; and the players
      alternate, X having one mark more than O exactly when the last
      mover was X. */
  ghost predicate Consistent(s: State) {
    && (s.ended <==> HasWin(s.board) || IsFull(s.board))
    && (forall k | 0 <= k < |LINES| :: Complete(s.board, LINES[k]) ==> Owns(s.board, LINES[k], s.current))
    && Count(s.board, Mark(X)) == Count(s.board, Mark(O)) + (if (s.current == O) != s.ended then 1 else 0)
  }

  lemma StartConsistent()
    ensures Consistent(START)
    ensures !HasWin(START.board) && !IsFull(START.board)
  {
    assert At(START.board, Pos(0, 0)) == Empty;
    forall k | 0 <= k < |LINES|
      ensures !Complete(START.board, LINES[k])
    {
      assert At(START.board, LINES[k].first) == Empty;
    }
  }

  /** Writing `c` over an empty cell of a row adds one `c` and changes no
      other count but that of Empty. */
  lemma RowWriteCount(row: seq<Cell>, j: nat, c: Cell, d: Cell)
    requires j < |row| && row[j] == Empty && c != Empty
    ensures multiset(row[j := c])[c] == multiset(row)[c] + 1
    ensures d != c && d != Empty ==> multiset(row[j := c])[d] == multiset(row)[d]
  {
    assert multiset(row[j := c]) == multiset(row) - multiset{Empty} + multiset{c};
  }

  /** Writing a mark into an empty cell adds one to that player's count
      and leaves the other player's count alone. */
  lemma WriteCount(b: Board, p: Pos, x: Player)
    requires At(b, p) == Empty
    ensures Count(Write(b, p, Mark(x)), Mark(x)) == Count(b, Mark(x)) + 1
    ensures Count(Write(b, p, Mark(x)), Mark(Other(x))) == Count(b, Mark(Other(x)))
  {
    var b' := Write(b, p, Mark(x));
    assert b'[p.row] == b[p.row][p.col := Mark(x)];
    RowWriteCount(b[p.row], p.col, Mark(x), Mark(Other(x)));
  }

  /** A line that the click completes runs through the clicked cell and
      holds the mover's marks. */
  lemma NewLineIsMovers(b: Board, p: Pos, x: Player, l: Line)
    requires !Complete(b, l)
    requires Complete(Write(b, p, Mark(x)), l)
    ensures l.Contains(p)
    ensures Owns(Write(b, p, Mark(x)), l, x)
  {
  }

  /** After a winning click, every complete line is the winner's: nobody
      else can hold a line. */
  lemma {:induction false} WinnerIsMover(s: State, p: Pos)
    requires Consistent(s)
    requires Place(s, p).outcome.Won?
    ensures Place(s, p).outcome.winner == s.current
    ensures forall k | 0 <= k < |LINES| :: Complete(Place(s, p).next.board, LINES[k]) ==>
      Owns(Place(s, p).next.board, LINES[k], s.current)
    ensures forall k | 0 <= k < |LINES| :: !Owns(Place(s, p).next.board, LINES[k], Other(s.current))
  {
    var b := s.board;
    var b' := Place(s, p).next.board;
    assert b' == Write(b, p, Mark(s.current));
    forall k | 0 <= k < |LINES| && Complete(b', LINES[k])
      ensures Owns(b', LINES[k], s.current)
    {
      assert !Complete(b, LINES[k]);
      NewLineIsMovers(b, p, s.current, LINES[k]);
    }
    forall k | 0 <= k < |LINES|
      ensures !Owns(b', LINES[k], Other(s.current))
    {
      if Owns(b', LINES[k], Other(s.current)) {
        assert Complete(b', LINES[k]);
      }
    }
  }

  /** One click keeps the invariant. */
  lemma {:induction false} PlaceConsistent(s: State, p: Pos)
    requires Consistent(s)
    ensures Consistent(Place(s, p).next)
  {
    var m := Place(s, p);
    if m.outcome != Rejected {
      var b' := m.next.board;
      assert b' == Write(s.board, p, Mark(s.current));
      WriteCount(s.board, p, s.current);
      assert s.current == X ==> Other(s.current) == O;
      assert s.current == O ==> Other(s.current) == X;
      if m.outcome.Won? {
        WinnerIsMover(s, p);
      }
    }
  }

  /** Clicks without a reset keep the invariant. */
  lemma {:induction false} RunConsistent(s: State, clicks: seq<Pos>)
    requires Consistent(s)
    ensures Consistent(Run(s, clicks))
    decreases |clicks|
  {
    if clicks != [] {
      PlaceConsistent(s, clicks[0]);
      RunConsistent(Place(s, clicks[0]).next, clicks[1..]);
    }
  }

  /** Every state reached from the start keeps the invariant; in
      particular at most one player holds a complete line. */
  lemma Reachable(clicks: seq<Pos>)
    ensures Consistent(Run(START, clicks))
  {
    StartConsistent();
    RunConsistent(START, clicks);
  }

  /** Outside a reset, a mark once placed stays where it is. */
  lemma {:induction false} RunKeepsMarks(s: State, clicks: seq<Pos>, q: Pos)
    requires At(s.board, q) != Empty
    ensures At(Run(s, clicks).board, q) == At(s.board, q)
    decreases |clicks|
  {
    if clicks != [] {
      RunKeepsMarks(Place(s, clicks[0]).next, clicks[1..], q);
    }
  }

  /** An ended game ignores every click until it is reset. */
  lemma {:induction false} EndedIsFinal(s: State, clicks: seq<Pos>)
    requires s.ended
    ensures Run(s, clicks) == s
    decreases |clicks|
  {
    if clicks != [] {
      EndedIsFinal(Place(s, clicks[0]).next, clicks[1..]);
    }
  }

  /** Clicks split anywhere: running the first part and then the rest is
      running the whole sequence. */
  lemma {:induction false} RunAppend(s: State, a: seq<Pos>, b: seq<Pos>)
    ensures Run(s, a + b) == Run(Run(s, a), b)
    decreases |a|
  {
    if a == [] {
      assert a + b == b;
    } else {
      assert (a + b)[0] == a[0] && (a + b)[1..] == a[1..] + b;
      RunAppend(Place(s, a[0]).next, a[1..], b);
    }
  }

  /** No row, column or diagonal holds three equal marks, written cell by
      cell so that it can be evaluated on a given board. */
  ghost predicate NoLine(b: Board) {
    && !CheckThree(b[0][0], b[0][1], b[0][2]) && !CheckThree(b[1][0], b[1][1], b[1][2])
    && !CheckThree(b[2][0], b[2][1], b[2][2]) && !CheckThree(b[0][0], b[1][0], b[2][0])
    && !CheckThree(b[0][1], b[1][1], b[2][1]) && !CheckThree(b[0][2], b[1][2], b[2][2])
    && !CheckThree(b[0][0], b[1][1], b[2][2]) && !CheckThree(b[0][2], b[1][1], b[2][0])
  }

  lemma NoLineNoWin(b: Board)
    requires NoLine(b)
    ensures !HasWin(b)
  {
    HasWinUnrolled(b);
  }

  /** The board `t` is `b` with cell `p` set to `c`, checked row by row. */
  lemma Stepped(b: Board, p: Pos, c: Cell, t: Board)
    requires t[p.row] == b[p.row][p.col := c]
    requires forall r: Coord :: r != p.row ==> t[r] == b[r]
    ensures t == Write(b, p, c)
  {
    BoardsEqual(t, Write(b, p, c));
  }

  /** A scripted click on `p`, giving board `t`, that completes no line
      while cell `q` stays empty: play goes on with the other player. */
  lemma Continues(s: State, p: Pos, q: Pos, t: Board)
    requires !s.ended && At(s.board, p) == Empty
    requires q != p && At(s.board, q) == Empty
    requires t == Write(s.board, p, Mark(s.current)) && NoLine(t)
    ensures Place(s, p) == Move(State(t, Other(s.current), false), Continue)
  {
    NoLineNoWin(t);
    assert At(t, q) == Empty;
    assert !IsFull(t);
  }

  /** A scripted click on `p`, giving board `t`, that completes line `k`:
      the mover wins. */
  lemma Wins(s: State, p: Pos, k: nat, t: Board)
    requires !s.ended && At(s.board, p) == Empty
    requires t == Write(s.board, p, Mark(s.current))
    requires k < |LINES| && Complete(t, LINES[k])
    ensures Place(s, p) == Move(State(t, s.current, true), Won(s.current))
  {
  }

  /** A scripted click on the last empty cell `p`, giving the full board
      `t`, that completes no line: a tie. */
  lemma Ties(s: State, p: Pos, t: Board)
    requires !s.ended && At(s.board, p) == Empty
    requires t == Write(s.board, p, Mark(s.current)) && NoLine(t)
    requires forall q: Pos :: At(t, q) != Empty
    ensures Place(s, p) == Move(State(t, s.current, true), Tie)
  {
    NoLineNoWin(t);
  }

  /** A board written out cell by cell in reading order. */
  function Grid(c00: Cell, c01: Cell, c02: Cell, c10: Cell, c11: Cell, c12: Cell, c20: Cell, c21: Cell, c22: Cell): Board {
    [[c00, c01, c02], [c10, c11, c12], [c20, c21, c22]]
  }

  /** The first click of a sequence, taken on its own. */
  lemma RunStep(s: State, p: Pos, rest: seq<Pos>)
    ensures Run(s, [p] + rest) == Run(Place(s, p).next, rest)
  {
    assert ([p] + rest)[1..] == rest;
  }

  /** X takes the top row while O answers in the centre and a corner: after
      four clicks play is still on, the fifth click wins for X, the turn
      stays with X, and a later click on an empty cell is ignored. */
  lemma TopRowScenario()
    ensures Run(START, [Pos(0, 0), Pos(1, 1), Pos(0, 1), Pos(2, 2)]) ==
      State(Grid(Mark(X), Mark(X), Empty, Empty, Mark(O), Empty, Empty, Empty, Mark(O)), X, false)
    ensures Place(State(Grid(Mark(X), Mark(X), Empty, Empty, Mark(O), Empty, Empty, Empty, Mark(O)), X, false), Pos(0, 2)) ==
      Move(State(Grid(Mark(X), Mark(X), Mark(X), Empty, Mark(O), Empty, Empty, Empty, Mark(O)), X, true), Won(X))
    ensures Place(State(Grid(Mark(X), Mark(X), Mark(X), Empty, Mark(O), Empty, Empty, Empty, Mark(O)), X, true), Pos(2, 0)).outcome == Rejected
  {
    var b1 := Grid(Mark(X), Empty, Empty, Empty, Empty, Empty, Empty, Empty, Empty);
    Stepped(START.board, Pos(0, 0), Mark(X), b1);
    Continues(START, Pos(0, 0), Pos(0, 1), b1);
    var s1 := State(b1, O, false);
    var b2 := Grid(Mark(X), Empty, Empty, Empty, Mark(O), Empty, Empty, Empty, Empty);
    Stepped(s1.board, Pos(1, 1), Mark(O), b2);
    Continues(s1, Pos(1, 1), Pos(0, 1), b2);
    var s2 := State(b2, X, false);
    var b3 := Grid(Mark(X), Mark(X), Empty, Empty, Mark(O), Empty, Empty, Empty, Empty);
    Stepped(s2.board, Pos(0, 1), Mark(X), b3);
    Continues(s2, Pos(0, 1), Pos(0, 2), b3);
    var s3 := State(b3, O, false);
    var b4 := Grid(Mark(X), Mark(X), Empty, Empty, Mark(O), Empty, Empty, Empty, Mark(O));
    Stepped(s3.board, Pos(2, 2), Mark(O), b4);
    Continues(s3, Pos(2, 2), Pos(0, 2), b4);
    var s4 := State(b4, X, false);
    assert Run(s4, []) == s4;
    RunStep(s3, Pos(2, 2), []);
    RunStep(s2, Pos(0, 1), [Pos(2, 2)]);
    RunStep(s1, Pos(1, 1), [Pos(0, 1), Pos(2, 2)]);
    RunStep(START, Pos(0, 0), [Pos(1, 1), Pos(0, 1), Pos(2, 2)]);
    var b5 := Grid(Mark(X), Mark(X), Mark(X), Empty, Mark(O), Empty, Empty, Empty, Mark(O));
    Stepped(s4.board, Pos(0, 2), Mark(X), b5);
    Wins(s4, Pos(0, 2), 0, b5);
  }

  /** The position after the first six clicks in reading order: the top
      two rows hold alternating marks, no line is complete, X to move. */
  const OPENING: State := State(Grid(Mark(X), Mark(O), Mark(X), Mark(O), Mark(X), Mark(O), Empty, Empty, Empty), X, false)

  /** The first six clicks in reading order lead to OPENING. */
  lemma ReadingOrderOpening()
    ensures Run(START, [Pos(0, 0), Pos(0, 1), Pos(0, 2), Pos(1, 0), Pos(1, 1), Pos(1, 2)]) == OPENING
  {
    var b1 := Grid(Mark(X), Empty, Empty, Empty, Empty, Empty, Empty, Empty, Empty);
    Stepped(START.board, Pos(0, 0), Mark(X), b1);
    Continues(START, Pos(0, 0), Pos(0, 1), b1);
    var s1 := State(b1, O, false);
    var b2 := Grid(Mark(X), Mark(O), Empty, Empty, Empty, Empty, Empty, Empty, Empty);
    Stepped(s1.board, Pos(0, 1), Mark(O), b2);
    Continues(s1, Pos(0, 1), Pos(0, 2), b2);
    var s2 := State(b2, X, false);
    var b3 := Grid(Mark(X), Mark(O), Mark(X), Empty, Empty, Empty, Empty, Empty, Empty);
    Stepped(s2.board, Pos(0, 2), Mark(X), b3);
    Continues(s2, Pos(0, 2), Pos(1, 0), b3);
    var s3 := State(b3, O, false);
    var b4 := Grid(Mark(X), Mark(O), Mark(X), Mark(O), Empty, Empty, Empty, Empty, Empty);
    Stepped(s3.board, Pos(1, 0), Mark(O), b4);
    Continues(s3, Pos(1, 0), Pos(1, 1), b4);
    var s4 := State(b4, X, false);
    var b5 := Grid(Mark(X), Mark(O), Mark(X), Mark(O), Mark(X), Empty, Empty, Empty, Empty);
    Stepped(s4.board, Pos(1, 1), Mark(X), b5);
    Continues(s4, Pos(1, 1), Pos(1, 2), b5);
    var s5 := State(b5, O, false);
    var b6 := Grid(Mark(X), Mark(O), Mark(X), Mark(O), Mark(X), Mark(O), Empty, Empty, Empty);
    Stepped(s5.board, Pos(1, 2), Mark(O), b6);
    Continues(s5, Pos(1, 2), Pos(2, 0), b6);
    var s6 := State(b6, X, false);
    assert Run(s6, []) == s6;
    RunStep(s5, Pos(1, 2), []);
    RunStep(s4, Pos(1, 1), [Pos(1, 2)]);
    RunStep(s3, Pos(1, 0), [Pos(1, 1), Pos(1, 2)]);
    RunStep(s2, Pos(0, 2), [Pos(1, 0), Pos(1, 1), Pos(1, 2)]);
    RunStep(s1, Pos(0, 1), [Pos(0, 2), Pos(1, 0), Pos(1, 1), Pos(1, 2)]);
    RunStep(START, Pos(0, 0), [Pos(0, 1), Pos(0, 2), Pos(1, 0), Pos(1, 1), Pos(1, 2)]);
  }

  /** From OPENING, X at the bottom-left corner completes the anti-diagonal
      and wins; the clicks on the last two cells are ignored. */
  lemma ReadingOrderEnding()
    ensures Place(OPENING, Pos(2, 0)) ==
      Move(State(Grid(Mark(X), Mark(O), Mark(X), Mark(O), Mark(X), Mark(O), Mark(X), Empty, Empty), X, true), Won(X))
    ensures Run(OPENING, [Pos(2, 0), Pos(2, 1), Pos(2, 2)]) ==
      State(Grid(Mark(X), Mark(O), Mark(X), Mark(O), Mark(X), Mark(O), Mark(X), Empty, Empty), X, true)
  {
    var b1 := Grid(Mark(X), Mark(O), Mark(X), Mark(O), Mark(X), Mark(O), Mark(X), Empty, Empty);
    Stepped(OPENING.board, Pos(2, 0), Mark(X), b1);
    Wins(OPENING, Pos(2, 0), 7, b1);
    var s1 := State(b1, X, true);
    EndedIsFinal(s1, [Pos(2, 1), Pos(2, 2)]);
    RunStep(OPENING, Pos(2, 0), [Pos(2, 1), Pos(2, 2)]);
  }

  /** Clicking all nine cells in reading order: X wins on the seventh click. */
  lemma ReadingOrderScenario()
    ensures Run(START, [Pos(0, 0), Pos(0, 1), Pos(0, 2), Pos(1, 0), Pos(1, 1), Pos(1, 2), Pos(2, 0), Pos(2, 1), Pos(2, 2)]) ==
      State(Grid(Mark(X), Mark(O), Mark(X), Mark(O), Mark(X), Mark(O), Mark(X), Empty, Empty), X, true)
  {
    ReadingOrderOpening();
    ReadingOrderEnding();
    RunAppend(START, [Pos(0, 0), Pos(0, 1), Pos(0, 2), Pos(1, 0), Pos(1, 1), Pos(1, 2)], [Pos(2, 0), Pos(2, 1), Pos(2, 2)]);
    assert [Pos(0, 0), Pos(0, 1), Pos(0, 2), Pos(1, 0), Pos(1, 1), Pos(1, 2)] + [Pos(2, 0), Pos(2, 1), Pos(2, 2)] == [Pos(0, 0), Pos(0, 1), Pos(0, 2), Pos(1, 0), Pos(1, 1), Pos(1, 2), Pos(2, 0), Pos(2, 1), Pos(2, 2)];
  }

  /** From OPENING, X in the bottom middle and O in the bottom-left corner
      complete no line and leave the bottom-right corner as the only
      empty cell. */
  lemma WinOnFullBoardMiddle()
    ensures Run(OPENING, [Pos(2, 1), Pos(2, 0)]) ==
      State(Grid(Mark(X), Mark(O), Mark(X), Mark(O), Mark(X), Mark(O), Mark(O), Mark(X), Empty), X, false)
  {
    var b1 := Grid(Mark(X), Mark(O), Mark(X), Mark(O), Mark(X), Mark(O), Empty, Mark(X), Empty);
    Stepped(OPENING.board, Pos(2, 1), Mark(X), b1);
    Continues(OPENING, Pos(2, 1), Pos(2, 0), b1);
    var s1 := State(b1, O, false);
    var b2 := Grid(Mark(X), Mark(O), Mark(X), Mark(O), Mark(X), Mark(O), Mark(O), Mark(X), Empty);
    Stepped(s1.board, Pos(2, 0), Mark(O), b2);
    Continues(s1, Pos(2, 0), Pos(2, 2), b2);
    var s2 := State(b2, X, false);
    assert Run(s2, []) == s2;
    RunStep(s1, Pos(2, 0), []);
    RunStep(OPENING, Pos(2, 1), [Pos(2, 0)]);
  }

  /** X's click on that last cell both completes the diagonal and fills the
      board. The win is found first, so the game ends as a win for X, not
      as a tie. */
  lemma WinOnFullBoardEnding()
    ensures Place(State(Grid(Mark(X), Mark(O), Mark(X), Mark(O), Mark(X), Mark(O), Mark(O), Mark(X), Empty), X, false), Pos(2, 2)) ==
      Move(State(Grid(Mark(X), Mark(O), Mark(X), Mark(O), Mark(X), Mark(O), Mark(O), Mark(X), Mark(X)), X, true), Won(X))
    ensures IsFull(Grid(Mark(X), Mark(O), Mark(X), Mark(O), Mark(X), Mark(O), Mark(O), Mark(X), Mark(X)))
  {
    var s := State(Grid(Mark(X), Mark(O), Mark(X), Mark(O), Mark(X), Mark(O), Mark(O), Mark(X), Empty), X, false);
    var t := Grid(Mark(X), Mark(O), Mark(X), Mark(O), Mark(X), Mark(O), Mark(O), Mark(X), Mark(X));
    Stepped(s.board, Pos(2, 2), Mark(X), t);
    Wins(s, Pos(2, 2), 6, t);
  }

  /** The game of WinOnFullBoardEnding from the start: after its first
      eight clicks only the bottom-right corner is empty. */
  lemma WinOnFullBoardScenario()
    ensures Run(START, [Pos(0, 0), Pos(0, 1), Pos(0, 2), Pos(1, 0), Pos(1, 1), Pos(1, 2), Pos(2, 1), Pos(2, 0)]) ==
      State(Grid(Mark(X), Mark(O), Mark(X), Mark(O), Mark(X), Mark(O), Mark(O), Mark(X), Empty), X, false)
  {
    ReadingOrderOpening();
    WinOnFullBoardMiddle();
    RunAppend(START, [Pos(0, 0), Pos(0, 1), Pos(0, 2), Pos(1, 0), Pos(1, 1), Pos(1, 2)], [Pos(2, 1), Pos(2, 0)]);
    assert [Pos(0, 0), Pos(0, 1), Pos(0, 2), Pos(1, 0), Pos(1, 1), Pos(1, 2)] + [Pos(2, 1), Pos(2, 0)] == [Pos(0, 0), Pos(0, 1), Pos(0, 2), Pos(1, 0), Pos(1, 1), Pos(1, 2), Pos(2, 1), Pos(2, 0)];
  }

  /** The position after the first four clicks of the drawn game: X holds
      two top corners, O the top middle and the centre, X to move. */
  const DRAW_OPENING: State := State(Grid(Mark(X), Mark(O), Mark(X), Empty, Mark(O), Empty, Empty, Empty, Empty), X, false)

  /** The first four clicks of the drawn game lead to DRAW_OPENING. */
  lemma TieOpening()
    ensures Run(START, [Pos(0, 0), Pos(0, 1), Pos(0, 2), Pos(1, 1)]) == DRAW_OPENING
  {
    var b1 := Grid(Mark(X), Empty, Empty, Empty, Empty, Empty, Empty, Empty, Empty);
    Stepped(START.board, Pos(0, 0), Mark(X), b1);
    Continues(START, Pos(0, 0), Pos(0, 1), b1);
    var s1 := State(b1, O, false);
    var b2 := Grid(Mark(X), Mark(O), Empty, Empty, Empty, Empty, Empty, Empty, Empty);
    Stepped(s1.board, Pos(0, 1), Mark(O), b2);
    Continues(s1, Pos(0, 1), Pos(0, 2), b2);
    var s2 := State(b2, X, false);
    var b3 := Grid(Mark(X), Mark(O), Mark(X), Empty, Empty, Empty, Empty, Empty, Empty);
    Stepped(s2.board, Pos(0, 2), Mark(X), b3);
    Continues(s2, Pos(0, 2), Pos(1, 0), b3);
    var s3 := State(b3, O, false);
    var b4 := Grid(Mark(X), Mark(O), Mark(X), Empty, Mark(O), Empty, Empty, Empty, Empty);
    Stepped(s3.board, Pos(1, 1), Mark(O), b4);
    Continues(s3, Pos(1, 1), Pos(1, 0), b4);
    var s4 := State(b4, X, false);
    assert Run(s4, []) == s4;
    RunStep(s3, Pos(1, 1), []);
    RunStep(s2, Pos(0, 2), [Pos(1, 1)]);
    RunStep(s1, Pos(0, 1), [Pos(0, 2), Pos(1, 1)]);
    RunStep(START, Pos(0, 0), [Pos(0, 1), Pos(0, 2), Pos(1, 1)]);
  }

  /** Four more alternating clicks from DRAW_OPENING leave the bottom-right
      corner as the only empty cell, still without a line. */
  lemma TieMiddle()
    ensures Run(DRAW_OPENING, [Pos(1, 0), Pos(1, 2), Pos(2, 1), Pos(2, 0)]) ==
      State(Grid(Mark(X), Mark(O), Mark(X), Mark(X), Mark(O), Mark(O), Mark(O), Mark(X), Empty), X, false)
  {
    var b1 := Grid(Mark(X), Mark(O), Mark(X), Mark(X), Mark(O), Empty, Empty, Empty, Empty);
    Stepped(DRAW_OPENING.board, Pos(1, 0), Mark(X), b1);
    Continues(DRAW_OPENING, Pos(1, 0), Pos(1, 2), b1);
    var s1 := State(b1, O, false);
    var b2 := Grid(Mark(X), Mark(O), Mark(X), Mark(X), Mark(O), Mark(O), Empty, Empty, Empty);
    Stepped(s1.board, Pos(1, 2), Mark(O), b2);
    Continues(s1, Pos(1, 2), Pos(2, 0), b2);
    var s2 := State(b2, X, false);
    var b3 := Grid(Mark(X), Mark(O), Mark(X), Mark(X), Mark(O), Mark(O), Empty, Mark(X), Empty);
    Stepped(s2.board, Pos(2, 1), Mark(X), b3);
    Continues(s2, Pos(2, 1), Pos(2, 0), b3);
    var s3 := State(b3, O, false);
    var b4 := Grid(Mark(X), Mark(O), Mark(X), Mark(X), Mark(O), Mark(O), Mark(O), Mark(X), Empty);
    Stepped(s3.board, Pos(2, 0), Mark(O), b4);
    Continues(s3, Pos(2, 0), Pos(2, 2), b4);
    var s4 := State(b4, X, false);
    assert Run(s4, []) == s4;
    RunStep(s3, Pos(2, 0), []);
    RunStep(s2, Pos(2, 1), [Pos(2, 0)]);
    RunStep(s1, Pos(1, 2), [Pos(2, 1), Pos(2, 0)]);
    RunStep(DRAW_OPENING, Pos(1, 0), [Pos(1, 2), Pos(2, 1), Pos(2, 0)]);
  }

  /** X's click on the last empty cell completes no line: the game ends as a
      tie and X is still the current player. */
  lemma TieEnding()
    ensures Place(State(Grid(Mark(X), Mark(O), Mark(X), Mark(X), Mark(O), Mark(O), Mark(O), Mark(X), Empty), X, false), Pos(2, 2)) ==
      Move(State(Grid(Mark(X), Mark(O), Mark(X), Mark(X), Mark(O), Mark(O), Mark(O), Mark(X), Mark(X)), X, true), Tie)
  {
    var s := State(Grid(Mark(X), Mark(O), Mark(X), Mark(X), Mark(O), Mark(O), Mark(O), Mark(X), Empty), X, false);
    var t := Grid(Mark(X), Mark(O), Mark(X), Mark(X), Mark(O), Mark(O), Mark(O), Mark(X), Mark(X));
    Stepped(s.board, Pos(2, 2), Mark(X), t);
    Ties(s, Pos(2, 2), t);
  }

  /** The drawn game from the start: eight clicks that fill all but one cell. */
  lemma TieScenario()
    ensures Run(START, [Pos(0, 0), Pos(0, 1), Pos(0, 2), Pos(1, 1), Pos(1, 0), Pos(1, 2), Pos(2, 1), Pos(2, 0)]) ==
      State(Grid(Mark(X), Mark(O), Mark(X), Mark(X), Mark(O), Mark(O), Mark(O), Mark(X), Empty), X, false)
  {
    TieOpening();
    TieMiddle();
    RunAppend(START, [Pos(0, 0), Pos(0, 1), Pos(0, 2), Pos(1, 1)], [Pos(1, 0), Pos(1, 2), Pos(2, 1), Pos(2, 0)]);
    assert [Pos(0, 0), Pos(0, 1), Pos(0, 2), Pos(1, 1)] + [Pos(1, 0), Pos(1, 2), Pos(2, 1), Pos(2, 0)] == [Pos(0, 0), Pos(0, 1), Pos(0, 2), Pos(1, 1), Pos(1, 0), Pos(1, 2), Pos(2, 1), Pos(2, 0)];
  }
}
