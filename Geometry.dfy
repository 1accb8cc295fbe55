// Geometry of a straight ship run on the 10x10 Battleship board:
// the orientation enumeration, board coordinates, and the offset formula
// that gives the i-th cell of a run.

module Geometry {

  /** Side of the square board (TABULEIRO_TAMANHO). */
  const BoardSize: int := 10

  /** Length of every ship the program places (TAMANHO_NAVIO). */
  const ShipSize: int := 3

  /** OrientacaoNavio, in the order of its declaration. */
  datatype Orientation = Horizontal | Vertical | DiagonalUpRight | DiagonalDownRight

  /** A board coordinate; either part may lie outside the board. */
  datatype Pos = Pos(row: int, col: int)

  predicate InBounds(p: Pos)
  {
    0 <= p.row < BoardSize && 0 <= p.col < BoardSize
  }

  /** The i-th cell of the run that starts at (r0, c0) in orientation o.
    * The run advances along the columns, except a vertical one, which
    * advances along the rows; Offset recovers i from the cell. */
  function Cell(o: Orientation, r0: int, c0: int, i: int): (p: Pos)
    ensures Offset(o, r0, c0, p) == i
    ensures i == 0 ==> p == Pos(r0, c0)
  {
    match o
    case Horizontal => Pos(r0, c0 + i)
    case Vertical => Pos(r0 + i, c0)
    case DiagonalUpRight => Pos(r0 - i, c0 + i)
    case DiagonalDownRight => Pos(r0 + i, c0 + i)
  }

  /** The index at which a run from (r0, c0) in orientation o would reach p's
    * column (its row, for a vertical run). */
  function Offset(o: Orientation, r0: int, c0: int, p: Pos): int
  {
    if o == Vertical then p.row - r0 else p.col - c0
  }

  /** p is one of the first size cells of the run; decided without a quantifier. */
  predicate OnRun(p: Pos, o: Orientation, r0: int, c0: int, size: int)
  {
    var i := Offset(o, r0, c0, p);
    0 <= i < size && Cell(o, r0, c0, i) == p
  }

  /** The set of cells a ship of length size occupies. */
  ghost function RunCells(o: Orientation, r0: int, c0: int, size: int): set<Pos>
  {
    set i | 0 <= i < size :: Cell(o, r0, c0, i)
  }

  /** Every cell of the run lies on the board. */
  predicate RunInBounds(o: Orientation, r0: int, c0: int, size: int)
  {
    forall i :: 0 <= i < size ==> InBounds(Cell(o, r0, c0, i))
  }

  /** One unit step in the direction the orientation describes: right, down,
    * up-and-right, down-and-right. */
  function Step(o: Orientation, p: Pos): Pos
  {
    match o
    case Horizontal => Pos(p.row, p.col + 1)
    case Vertical => Pos(p.row + 1, p.col)
    case DiagonalUpRight => Pos(p.row - 1, p.col + 1)
    case DiagonalDownRight => Pos(p.row + 1, p.col + 1)
  }

  /** The cell reached after n unit steps from start. */
  function Walk(o: Orientation, start: Pos, n: nat): Pos
  {
    if n == 0 then start else Step(o, Walk(o, start, n - 1))
  }

  /** The offset formula agrees with walking n unit steps from the origin. */
  lemma {:induction false} CellIsWalk(o: Orientation, r0: int, c0: int, n: nat)
    ensures Cell(o, r0, c0, n) == Walk(o, Pos(r0, c0), n)
  {
    if n > 0 {
      CellIsWalk(o, r0, c0, n - 1);
    }
  }

  /** The quantifier-free membership test agrees with the set of run cells. */
  lemma OnRunIff(p: Pos, o: Orientation, r0: int, c0: int, size: int)
    ensures OnRun(p, o, r0, c0, size) <==> p in RunCells(o, r0, c0, size)
  {
    if OnRun(p, o, r0, c0, size) {
      assert p == Cell(o, r0, c0, Offset(o, r0, c0, p));
    }
  }

  /** Growing a run by one cell adds exactly the next cell. */
  lemma RunCellsExtend(o: Orientation, r0: int, c0: int, n: nat)
    ensures RunCells(o, r0, c0, n + 1) == RunCells(o, r0, c0, n) + {Cell(o, r0, c0, n)}
    ensures Cell(o, r0, c0, n) !in RunCells(o, r0, c0, n)
  {
    var next := Cell(o, r0, c0, n);
    assert next in RunCells(o, r0, c0, n + 1);
  }

  /** The cells of a run are pairwise distinct: a ship of length n covers n cells. */
  lemma {:induction false} RunCellsCard(o: Orientation, r0: int, c0: int, n: nat)
    ensures |RunCells(o, r0, c0, n)| == n
  {
    if n == 0 {
      assert RunCells(o, r0, c0, 0) == {};
    } else {
      RunCellsCard(o, r0, c0, n - 1);
      RunCellsExtend(o, r0, c0, n - 1);
    }
  }

  /** Because every run is a straight line, it fits on the board exactly when
    * its first and its last cell do. */
  lemma RunInBoundsByEnds(o: Orientation, r0: int, c0: int, size: int)
    requires size > 0
    ensures RunInBounds(o, r0, c0, size)
        <==> InBounds(Cell(o, r0, c0, 0)) && InBounds(Cell(o, r0, c0, size - 1))
  {
  }

  /** A vertical ship of length 3 from (8, 6) would reach row 10. */
  lemma VerticalFromEightSixOffBoard()
    ensures !RunInBounds(Vertical, 8, 6, ShipSize)
    ensures InBounds(Pos(8, 6))
  {
    assert !InBounds(Cell(Vertical, 8, 6, 2));
  }
}
