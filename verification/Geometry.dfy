/** Board geometry and movement rules (domain/positions.py, domain/board.py, domain/rules.py). */
module Geometry {

  /** Zero-based cell; rows grow to the south, columns to the east. */
  datatype Position = Position(row: int, col: int)

  datatype Direction = North | South | East | West | Stay

  /** The cell one step from `p` in direction `d`. */
  function Move(p: Position, d: Direction): Position {
    match d
    case North => Position(p.row - 1, p.col)
    case South => Position(p.row + 1, p.col)
    case East => Position(p.row, p.col + 1)
    case West => Position(p.row, p.col - 1)
    case Stay => p
  }

  function Abs(x: int): nat {
    if x < 0 then -x else x
  }

  function Distance(a: Position, b: Position): nat {
    Abs(a.row - b.row) + Abs(a.col - b.col)
  }

  predicate Adjacent(p: Position, q: Position) {
    q == Move(p, North) || q == Move(p, South) || q == Move(p, East) || q == Move(p, West)
  }

  /** Adjacent cells are the cells at Manhattan distance one. */
  lemma AdjacentIsDistanceOne(p: Position, q: Position)
    ensures Adjacent(p, q) <==> Distance(p, q) == 1
  {
    if Distance(p, q) == 1 {
      assert p.row == q.row || p.col == q.col;
    }
  }

  predicate Within(n: int, p: Position) {
    0 <= p.row < n && 0 <= p.col < n
  }

  /** The cells with row in [top, bottom) and column in [left, right). */
  function Block(top: int, bottom: int, left: int, right: int): (cells: set<Position>)
    ensures forall q :: q in cells <==> top <= q.row < bottom && left <= q.col < right
  {
    set r, c | top <= r < bottom && left <= c < right :: Position(r, c)
  }

  /** A square board and its permanent barriers; placing a barrier makes a new board. */
  datatype Board = Board(size: int, barriers: set<Position>) {

    predicate InBounds(p: Position) {
      Within(size, p)
    }

    /** A cell that can be stood on. */
    predicate Open(p: Position) {
      InBounds(p) && p !in barriers
    }

    function WithBarrier(cell: Position): Board {
      Board(size, barriers + {cell})
    }

    function KeepInBounds(p: Position, d: Direction): (kept: seq<Position>)
      ensures kept == [] || kept == [Move(p, d)]
      ensures Move(p, d) in kept <==> InBounds(Move(p, d))
    {
      if InBounds(Move(p, d)) then [Move(p, d)] else []
    }

    /** The orthogonal neighbours that lie on the board. */
    function AdjacentCells(p: Position): (cells: seq<Position>)
      ensures |cells| <= 4
      ensures forall q :: q in cells <==> InBounds(q) && Adjacent(p, q)
    {
      KeepInBounds(p, North) + KeepInBounds(p, South) + KeepInBounds(p, East) + KeepInBounds(p, West)
    }
  }

  predicate IsLegal(p: Position, board: Board, d: Direction) {
    d.Stay? || board.Open(Move(p, d))
  }

  function KeepLegal(p: Position, board: Board, d: Direction): seq<Direction> {
    if IsLegal(p, board, d) then [d] else []
  }

  /** STAY first, then the open orthogonal directions in the order N, S, E, W. */
  function LegalDirections(p: Position, board: Board): (legal: seq<Direction>)
    ensures |legal| >= 1 && legal[0] == Stay
    ensures forall d :: d in legal <==> IsLegal(p, board, d)
    ensures forall i, j :: 0 <= i < j < |legal| ==> legal[i] != legal[j]
  {
    [Stay] + KeepLegal(p, board, North) + KeepLegal(p, board, South)
           + KeepLegal(p, board, East) + KeepLegal(p, board, West)
  }

  const COMPASS: seq<Direction> := [North, South, East, West]

  /** The loop that collects the legal directions. */
  method LegalMoveDirections(p: Position, board: Board) returns (legal: seq<Direction>)
    ensures legal == LegalDirections(p, board)
  {
    legal := [Stay];
    for i := 0 to |COMPASS|
      invariant i >= 0 && legal == [Stay]
                       + (if i > 0 then KeepLegal(p, board, North) else [])
                       + (if i > 1 then KeepLegal(p, board, South) else [])
                       + (if i > 2 then KeepLegal(p, board, East) else [])
                       + (if i > 3 then KeepLegal(p, board, West) else [])
    {
      var d := COMPASS[i];
      if board.Open(Move(p, d)) {
        legal := legal + [d];
      }
    }
  }

  datatype Moved = Reached(cell: Position) | IllegalAction

  /** A move that is not legal raises; a legal one goes one row up or down, one column right or left,
      or nowhere, onto an in-bounds cell that is the start itself or not a barrier. */
  function ApplyMove(p: Position, d: Direction, board: Board): (m: Moved)
    ensures m.IllegalAction? <==> !IsLegal(p, board, d)
    ensures m.Reached? ==>
              && m.cell.row - p.row == (match d case North => -1 case South => 1 case _ => 0)
              && m.cell.col - p.col == (match d case East => 1 case West => -1 case _ => 0)
    ensures m.Reached? ==> Distance(p, m.cell) <= 1 && (m.cell == p || board.Open(m.cell))
  {
    if d !in LegalDirections(p, board) then IllegalAction else Reached(Move(p, d))
  }
}
