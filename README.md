# Battleship ship placement, modelled in Dafny

This project models how `batalhaNaval.c` places ships. The program works on a 10×10 `int` board, `tabuleiro`. It fills the board with 0 (water). It then places four ships of length 3. Before each placement it calls `canPlaceShip`, and only when that check passes does it call `placeShip`, which writes 3 into the ship's cells.

The model follows the C code's own structure:

- `Geometry.dfy` holds the `OrientacaoNavio` enumeration (`Orientation`) and a board coordinate (`Pos`). It also holds the offset formula that both C functions repeat (lines 85-96 and 126-137). Here it is written once, as `Cell(o, r0, c0, i)`. This file also has the specification-level view of a run:
  - `Offset` inverts `Cell`;
  - `OnRun` tests membership in a run without a quantifier;
  - `RunCells` is the run as a set;
  - `RunInBounds` says every cell of the run is on the board;
  - `Walk` gives the run as repeated unit steps.
- `Board.dfy` models the board as an `array2<int>` that is updated in place:
  - `InitBoard` is the nested initialisation loops;
  - `CanPlaceShip` is the read-only checking loop with its early `return false`;
  - `PlaceShip` is the writing loop;
  - `TryPlaceShip` is one "check, then place" block of `main`.
- `Fleet.dfy` models the fixed sequence in `main` and proves what it leaves on the board.

`CanPlaceShip` is proved equal to the predicate `RunIsFree`. That predicate holds when every one of the `size` cells is on the board and holds 0. Any non-zero value blocks the run. The comment above the function says the check looks for "value 3", but the code tests `!= 0`. The model follows the code.

`PlaceShip` requires only that the run lies on the board (`RunInBounds`). The C code requires nothing explicit: its comment says the caller has already run `canPlaceShip`. What makes the write at line 139 safe is exactly the bounds part of that check. `FreeRunInBounds` proves that a run passing `RunIsFree` meets this precondition. `TryPlaceShip` writes the "validate first" discipline out in full.

## Model

| member | source | states |
|---|---|---|
| `Geometry.Cell` | batalhaNaval.c:85-96 | The i-th cell of a run is determined by its index: `Offset` recovers i from the cell, and cell 0 is the origin (r0, c0). |
| `Geometry.CellIsWalk` | batalhaNaval.c:10-15 | The offset formula of each orientation reaches the same cell as taking n unit steps from the origin in the direction the enumeration describes (column plus one; row plus one; row minus one and column plus one; both plus one). |
| `Geometry.OnRunIff` | batalhaNaval.c:124-138 | A cell being one of the first `size` cells of the run (the quantifier-free test) is equivalent, in both directions, to membership in the set of run cells. |
| `Geometry.RunCellsExtend` | batalhaNaval.c:124-140 | Iteration i of the loop adds exactly the cell `Cell(o, r0, c0, i)`, and that cell is not among the earlier ones. |
| `Geometry.RunCellsCard` | batalhaNaval.c:124-140 | A run of length n covers exactly n distinct cells. |
| `Geometry.RunInBoundsByEnds` | batalhaNaval.c:102-106 | For a non-empty run, every cell is on the board if and only if the first and last cells are. |
| `Geometry.VerticalFromEightSixOffBoard` | batalhaNaval.c:104-106 | A vertical length-3 run from (8,6) starts on the board but leaves it (row 10), so the bounds check rejects it. |
| `Board.FreeRunInBounds` | batalhaNaval.c:117-139 | A run that passes canPlaceShip's check lies entirely on the board, so the unchecked write at line 139 stays in bounds. |
| `Board.InitBoard` | batalhaNaval.c:227-232 | After initialisation every one of the 10×10 cells holds 0 (water). |
| `Board.CanPlaceShip` | batalhaNaval.c:79-115 | Returns true exactly when every index i in [0, size) gives a cell with both coordinates in [0,10) whose value is 0. It has no modifies clause, so the board is only read. |
| `Board.PlaceShip` | batalhaNaval.c:120-141 | For a run on the board, afterwards every run cell holds 3 and every other cell keeps its old value. |
| `Board.TryPlaceShip` | batalhaNaval.c:237-244 | The result is exactly canPlaceShip's verdict on the old board. If placed, only the run's cells become 3. If rejected, the board is unchanged. |
| `Fleet.ShipThreeOverlapsShipOne` | batalhaNaval.c:257-267 | Cell (2,2) belongs both to ship 1 (horizontal from (2,1)) and to ship 3 (diagonal down-right from (0,0)). |
| `Fleet.FleetCellsCount` | batalhaNaval.c:234-279 | Ships 1, 2 and 4 share no cell, so together they cover exactly 9 cells, all on the board. |
| `Fleet.PlaceFleet` | batalhaNaval.c:223-279 | Ships 1, 2 and 4 are placed and ship 3 is rejected. Every cell of the final board is 3 if it belongs to ship 1, 2 or 4, and 0 otherwise. The set of cells holding 3 is exactly those 9 cells. |

## Left out

- The chess-move printers `moverTorreRecursivo`, `moverBispoRecursivo` and `moverRainhaRecursivo` (lines 24-70): they only write text.
- The knight and bishop loop demonstrations in `main` (lines 161-213): they only write text.
- Board rendering and the success/failure messages (lines 240-243, 283-300): console output. `PlaceFleet` returns each ship's outcome as a boolean instead of printing it.
- The `else return false` branch for an orientation outside the enumeration (lines 97-99): the closed `Orientation` datatype has no such value.
- C `int` overflow in `start_row + i` and `start_col + i`: coordinates are mathematical integers. For the values the program uses, they are small.
- Shape templates (cone, cross, diamond), their overlay onto the board, and commutativity of placements: `batalhaNaval.c` contains no template or overlay code, and composing placements is covered only by the fixed scenario in `PlaceFleet`.
- The board's lifetime as a local array in `main`: `PlaceFleet` allocates a new `array2<int>` and returns it.
