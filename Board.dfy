// The 10x10 board as a two-dimensional array of int, with the placement
// check and the placement write that the program runs on it in place.

module Board {
  import opened Geometry

  /** Cell value for open water. */
  const Water: int := 0

  /** Cell value for a part of a ship. */
  const ShipMark: int := 3

  predicate IsBoard(board: array2<int>)
  {
    board.Length0 == BoardSize && board.Length1 == BoardSize
  }

  /** The specification of canPlaceShip: every one of the size cells of the run
    * lies on the board and holds Water. Any non-zero value blocks the run,
    * not only ShipMark. */
  predicate RunIsFree(board: array2<int>, startRow: int, startCol: int, size: int, o: Orientation)
    requires IsBoard(board)
    reads board
  {
    forall i :: 0 <= i < size ==>
      InBounds(Cell(o, startRow, startCol, i)) &&
      board[Cell(o, startRow, startCol, i).row, Cell(o, startRow, startCol, i).col] == Water
  }

  /** A free run is always on the board, which is what makes placing it safe. */
  lemma FreeRunInBounds(board: array2<int>, startRow: int, startCol: int, size: int, o: Orientation)
    requires IsBoard(board)
    requires RunIsFree(board, startRow, startCol, size, o)
    ensures RunInBounds(o, startRow, startCol, size)
  {
  }

  /** Fills the board with Water, row by row. */
  method InitBoard(board: array2<int>)
    requires IsBoard(board)
    modifies board
    ensures forall r, c :: 0 <= r < BoardSize && 0 <= c < BoardSize ==> board[r, c] == Water
  {
    var r := 0;
    while r < BoardSize
      invariant 0 <= r <= BoardSize
      invariant forall r', c' :: 0 <= r' < r && 0 <= c' < BoardSize ==> board[r', c'] == Water
    {
      var c := 0;
      while c < BoardSize
        invariant 0 <= c <= BoardSize
        invariant forall r', c' :: 0 <= r' < r && 0 <= c' < BoardSize ==> board[r', c'] == Water
        invariant forall c' :: 0 <= c' < c ==> board[r, c'] == Water
      {
        board[r, c] := Water;
        c := c + 1;
      }
      r := r + 1;
    }
  }

  /** canPlaceShip: walks the run and gives up at the first cell that is off
    * the board or not Water. It only reads the board. */
  method CanPlaceShip(board: array2<int>, startRow: int, startCol: int, size: int, o: Orientation)
    returns (ok: bool)
    requires IsBoard(board)
    ensures ok <==> RunIsFree(board, startRow, startCol, size, o)
  {
    var i := 0;
    while i < size
      invariant 0 <= i
      invariant forall j :: 0 <= j < i ==>
        InBounds(Cell(o, startRow, startCol, j)) &&
        board[Cell(o, startRow, startCol, j).row, Cell(o, startRow, startCol, j).col] == Water
      decreases size - i
    {
      var p := Cell(o, startRow, startCol, i);
      if p.row < 0 || p.row >= BoardSize || p.col < 0 || p.col >= BoardSize {
        return false;
      }
      if board[p.row, p.col] != Water {
        return false;
      }
      i := i + 1;
    }
    return true;
  }

  /** placeShip: writes ShipMark into every cell of the run and nowhere else.
    * It does no checking of its own; the run must lie on the board. */
  method PlaceShip(board: array2<int>, startRow: int, startCol: int, size: int, o: Orientation)
    requires IsBoard(board)
    requires RunInBounds(o, startRow, startCol, size)
    modifies board
    ensures forall r, c :: 0 <= r < BoardSize && 0 <= c < BoardSize ==>
      board[r, c] == if OnRun(Pos(r, c), o, startRow, startCol, size) then ShipMark else old(board[r, c])
  {
    var i := 0;
    while i < size
      invariant 0 <= i && (i <= size || i == 0)
      invariant forall r, c :: 0 <= r < BoardSize && 0 <= c < BoardSize ==>
        board[r, c] == if OnRun(Pos(r, c), o, startRow, startCol, i) then ShipMark else old(board[r, c])
    {
      var p := Cell(o, startRow, startCol, i);
      board[p.row, p.col] := ShipMark;
      i := i + 1;
    }
  }

  /** One block of the program's main: check the run and place the ship only
    * if the check passed. A rejected ship leaves the board unchanged. */
  method TryPlaceShip(board: array2<int>, startRow: int, startCol: int, size: int, o: Orientation)
    returns (placed: bool)
    requires IsBoard(board)
    modifies board
    ensures placed <==> old(RunIsFree(board, startRow, startCol, size, o))
    ensures forall r, c :: 0 <= r < BoardSize && 0 <= c < BoardSize ==>
      board[r, c] == if placed && OnRun(Pos(r, c), o, startRow, startCol, size) then ShipMark else old(board[r, c])
  {
    placed := CanPlaceShip(board, startRow, startCol, size, o);
    if placed {
      FreeRunInBounds(board, startRow, startCol, size, o);
      PlaceShip(board, startRow, startCol, size, o);
    }
  }
}
