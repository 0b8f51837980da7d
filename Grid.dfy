/**
 * The 4x4 board of Wumpus World: cells, the Manhattan-distance adjacency used
 * by every percept and by the arrow, clamping of moves to the board, and the
 * random placement of gold, the wumpus and the pits on free cells.
 */
module Grid {

  /** The board is gridSize x gridSize cells; the game never changes it. */
  const GridSize: int := 4

  /** A cell of the board: column x, row y (row 0 is the top row). */
  datatype Cell = Cell(x: int, y: int)

  /** The agent's start cell, which is also home: the agent wins by returning here with the gold. */
  const Start: Cell := Cell(0, 0)

  predicate InBounds(c: Cell) {
    0 <= c.x < GridSize && 0 <= c.y < GridSize
  }

  function Abs(n: int): nat {
    if n < 0 then -n else n
  }

  /** Distance between two values on one axis. */
  function Gap(a: int, b: int): nat {
    Abs(a - b)
  }

  /** Manhattan distance between two cells. */
  function Distance(a: Cell, b: Cell): (d: nat)
    ensures d == 0 <==> a == b
  {
    Gap(a.x, b.x) + Gap(a.y, b.y)
  }

  /** Orthogonal adjacency: the cells are exactly one step apart. */
  predicate Near(a: Cell, b: Cell) {
    Distance(a, b) == 1
  }

  /** The four cells one step up, down, left and right of `c` (some may lie off the board). */
  function Neighbours(c: Cell): seq<Cell> {
    [Cell(c.x, c.y - 1), Cell(c.x, c.y + 1), Cell(c.x - 1, c.y), Cell(c.x + 1, c.y)]
  }

  /** Near is orthogonal adjacency: never the same cell, never a diagonal. */
  lemma NearMeansNeighbour(a: Cell, b: Cell)
    ensures Near(a, b) <==> b in Neighbours(a)
  {
  }

  /** One coordinate clamped to [0, GridSize - 1], as a move clamps each axis. */
  function Clamp(v: int): (r: int)
    ensures 0 <= r < GridSize
    ensures forall w :: 0 <= w < GridSize ==> Gap(r, v) <= Gap(w, v)
  {
    if v < 0 then 0 else if v > GridSize - 1 then GridSize - 1 else v
  }

  /**
   * The cell reached from `c` by adding the delta (dx, dy), each axis clamped
   * to the board. From a cell on the board, no axis moves further than its delta.
   */
  function Step(c: Cell, dx: int, dy: int): (r: Cell)
    ensures r.x == Clamp(c.x + dx) && r.y == Clamp(c.y + dy)
    ensures InBounds(r)
    ensures InBounds(c) ==> Gap(r.x, c.x) <= Abs(dx) && Gap(r.y, c.y) <= Abs(dy)
    ensures InBounds(Cell(c.x + dx, c.y + dy)) ==> r == Cell(c.x + dx, c.y + dy)
  {
    Cell(Clamp(c.x + dx), Clamp(c.y + dy))
  }

  predicate Distinct(cells: seq<Cell>) {
    forall i, j :: 0 <= i < j < |cells| ==> cells[i] != cells[j]
  }

  /** Every cell of the board exactly once, in row-major order. */
  function AllCells(): (cells: seq<Cell>)
    ensures |cells| == GridSize * GridSize
    ensures Distinct(cells)
    ensures forall c :: c in cells <==> InBounds(c)
  {
    var cells := seq(16, i requires 0 <= i < 16 => Cell(i % 4, i / 4));
    forall c | InBounds(c) ensures c in cells {
      assert cells[c.y * 4 + c.x] == c;
    }
    cells
  }

  /** Some cell of the board is not excluded. */
  ghost predicate HasFreeCell(exclude: seq<Cell>) {
    exists c :: InBounds(c) && c !in exclude
  }

  /** Pigeonhole: fewer exclusions than distinct candidates leave a candidate free. */
  lemma {:induction false} FreeCandidate(cells: seq<Cell>, exclude: seq<Cell>)
    requires Distinct(cells)
    requires |exclude| < |cells|
    ensures exists c :: c in cells && c !in exclude
    decreases |cells|
  {
    if cells[0] in exclude {
      var j :| 0 <= j < |exclude| && exclude[j] == cells[0];
      var rest := exclude[..j] + exclude[j + 1..];
      assert forall e :: e in exclude ==> e == cells[0] || e in rest by {
        forall e | e in exclude ensures e == cells[0] || e in rest {
          var k :| 0 <= k < |exclude| && exclude[k] == e;
          if k < j {
            assert rest[k] == e;
          } else if k > j {
            assert rest[k - 1] == e;
          }
        }
      }
      FreeCandidate(cells[1..], rest);
      var c :| c in cells[1..] && c !in rest;
      var i :| 1 <= i < |cells| && cells[i] == c;
      assert c != cells[0];
      assert c in cells && c !in exclude;
    }
  }

  /** Fewer than GridSize * GridSize exclusions always leave a free cell on the board. */
  lemma FreeCellExists(exclude: seq<Cell>)
    requires |exclude| < GridSize * GridSize
    ensures HasFreeCell(exclude)
  {
    FreeCandidate(AllCells(), exclude);
  }

  /**
   * A cell drawn at random from the board that is none of the cells in
   * `exclude`. The rejection loop of the game re-draws until such a cell
   * comes up; which free cell is returned is left open here.
   */
  method GetRandomPos(exclude: seq<Cell>) returns (pos: Cell)
    requires HasFreeCell(exclude)
    ensures InBounds(pos)
    ensures pos !in exclude
  {
    ghost var free :| InBounds(free) && free !in exclude;
    assert free in AllCells();
    pos :| pos in AllCells() && pos !in exclude;
  }

  /** The cells that setup places: gold, then the wumpus, then the pits. */
  function Placed(gold: Cell, wumpus: Cell, pits: seq<Cell>): seq<Cell> {
    [gold, wumpus] + pits
  }

  /**
   * A layout the setup can produce: three pits, and gold, wumpus and pits on
   * five different cells of the board, none of them the start cell.
   */
  predicate LayoutOk(gold: Cell, wumpus: Cell, pits: seq<Cell>) {
    |pits| == 3 &&
    Distinct(Placed(gold, wumpus, pits)) &&
    forall c :: c in Placed(gold, wumpus, pits) ==> InBounds(c) && c != Start
  }
}
