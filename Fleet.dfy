// The fixed scenario of the program's main: a fresh board, filled with
// water, and four ships of length 3, each checked before it is placed.

module Fleet {
  import opened Geometry
  import opened Board

  /** A cell of one of the ships the scenario manages to place: ship 1
    * (horizontal from (2,1)), ship 2 (vertical from (4,6)) and ship 4
    * (diagonal up-right from (2,7)). */
  predicate OnFleet(p: Pos)
  {
    OnRun(p, Horizontal, 2, 1, ShipSize) ||
    OnRun(p, Vertical, 4, 6, ShipSize) ||
    OnRun(p, DiagonalUpRight, 2, 7, ShipSize)
  }

  /** The cells of ships 1, 2 and 4, as a set. */
  ghost function FleetCells(): set<Pos>
  {
    RunCells(Horizontal, 2, 1, ShipSize) +
    RunCells(Vertical, 4, 6, ShipSize) +
    RunCells(DiagonalUpRight, 2, 7, ShipSize)
  }

  /** The board cells that hold ShipMark. */
  ghost function MarkedCells(board: array2<int>): set<Pos>
    requires IsBoard(board)
    reads board
  {
    set r, c | 0 <= r < BoardSize && 0 <= c < BoardSize && board[r, c] == ShipMark :: Pos(r, c)
  }

  /** Ship 3 (diagonal down-right from (0,0)) needs cell (2,2), which ship 1
    * already holds. */
  lemma ShipThreeOverlapsShipOne()
    ensures Pos(2, 2) in RunCells(Horizontal, 2, 1, ShipSize)
    ensures Pos(2, 2) in RunCells(DiagonalDownRight, 0, 0, ShipSize)
  {
    assert Cell(Horizontal, 2, 1, 1) == Pos(2, 2);
    assert Cell(DiagonalDownRight, 0, 0, 2) == Pos(2, 2);
  }

  /** The three placed ships do not share a cell, so together they cover
    * 3 + 3 + 3 cells, all on the board. */
  lemma FleetCellsCount()
    ensures |FleetCells()| == 9
    ensures forall p :: p in FleetCells() ==> InBounds(p)
  {
    var a := RunCells(Horizontal, 2, 1, ShipSize);
    var b := RunCells(Vertical, 4, 6, ShipSize);
    var d := RunCells(DiagonalUpRight, 2, 7, ShipSize);
    RunCellsCard(Horizontal, 2, 1, ShipSize);
    RunCellsCard(Vertical, 4, 6, ShipSize);
    RunCellsCard(DiagonalUpRight, 2, 7, ShipSize);
    assert a * b == {} by {
      forall p | p in a ensures p !in b {
        OnRunIff(p, Horizontal, 2, 1, ShipSize);
        OnRunIff(p, Vertical, 4, 6, ShipSize);
      }
    }
    assert (a + b) * d == {} by {
      forall p | p in d ensures p !in a && p !in b {
        OnRunIff(p, Horizontal, 2, 1, ShipSize);
        OnRunIff(p, Vertical, 4, 6, ShipSize);
        OnRunIff(p, DiagonalUpRight, 2, 7, ShipSize);
      }
    }
  }

  /** main's placement sequence. placed[k] says whether ship k + 1 was placed.
    * Ships 1, 2 and 4 go on the board, ship 3 is rejected, and the board
    * ends with ShipMark on exactly the cells of ships 1, 2 and 4 and Water
    * everywhere else. */
  method PlaceFleet() returns (board: array2<int>, placed: seq<bool>)
    ensures IsBoard(board)
    ensures placed == [true, true, false, true]
    ensures forall r, c :: 0 <= r < BoardSize && 0 <= c < BoardSize ==>
      board[r, c] == if OnFleet(Pos(r, c)) then ShipMark else Water
    ensures MarkedCells(board) == FleetCells()
  {
    board := new int[BoardSize, BoardSize];
    InitBoard(board);

    var ship1 := TryPlaceShip(board, 2, 1, ShipSize, Horizontal);
    var ship2 := TryPlaceShip(board, 4, 6, ShipSize, Vertical);
    assert board[2, 2] == ShipMark && Cell(DiagonalDownRight, 0, 0, 2) == Pos(2, 2);
    var ship3 := TryPlaceShip(board, 0, 0, ShipSize, DiagonalDownRight);
    var ship4 := TryPlaceShip(board, 2, 7, ShipSize, DiagonalUpRight);
    placed := [ship1, ship2, ship3, ship4];

    forall p | p in FleetCells() ensures p in MarkedCells(board) {
      OnRunIff(p, Horizontal, 2, 1, ShipSize);
      OnRunIff(p, Vertical, 4, 6, ShipSize);
      OnRunIff(p, DiagonalUpRight, 2, 7, ShipSize);
      FleetCellsCount();
      assert board[p.row, p.col] == ShipMark;
    }
    forall p | p in MarkedCells(board) ensures p in FleetCells() {
      OnRunIff(p, Horizontal, 2, 1, ShipSize);
      OnRunIff(p, Vertical, 4, 6, ShipSize);
      OnRunIff(p, DiagonalUpRight, 2, 7, ShipSize);
    }
  }
}
