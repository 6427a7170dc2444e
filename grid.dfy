/**
 * The player's grid position and the clamped one-cell moves of
 * `Player::move_left/right/up/down`. The grid size is a parameter because the
 * movement demo checks against a bound one larger than the later demos.
 */
module Grid {

  datatype Cell = Cell(x: nat, y: nat)

  datatype Direction = Left | Right | Up | Down

  const Origin: Cell := Cell(0, 0)

  predicate Within(c: Cell, width: nat, height: nat) {
    c.x < width && c.y < height
  }

  /** The neighbouring position in direction d, which may lie off the grid (x or y of -1). */
  function Target(c: Cell, d: Direction): (int, int) {
    match d
    case Left => (c.x - 1, c.y)
    case Right => (c.x + 1, c.y)
    case Up => (c.x, c.y - 1)
    case Down => (c.x, c.y + 1)
  }

  /**
   * One move as the player code performs it: each direction tests only the
   * coordinate it changes (`0 < x` before a decrement, `x < width - 1` before
   * an increment) and otherwise leaves the position alone.
   */
  function Step(c: Cell, d: Direction, width: nat, height: nat): Cell {
    match d
    case Left => if 0 < c.x then Cell(c.x - 1, c.y) else c
    case Right => if c.x + 1 < width then Cell(c.x + 1, c.y) else c
    case Up => if 0 < c.y then Cell(c.x, c.y - 1) else c
    case Down => if c.y + 1 < height then Cell(c.x, c.y + 1) else c
  }

  /**
   * On the grid, a move goes to the neighbouring cell exactly when that cell
   * is on the grid too, and is dropped otherwise: the move changes one
   * coordinate by one, or nothing.
   */
  lemma StepIsClampedNeighbour(c: Cell, d: Direction, width: nat, height: nat)
    requires Within(c, width, height)
    ensures var (tx, ty) := Target(c, d);
      if 0 <= tx < width && 0 <= ty < height
      then Step(c, d, width, height) == Cell(tx, ty)
      else Step(c, d, width, height) == c
  {
  }

  /** Edge moves are no-ops: left in column 0, up in row 0, right in the last column, down in the last row. */
  lemma EdgeMovesAreNoOps(c: Cell, width: nat, height: nat)
    requires Within(c, width, height)
    ensures c.x == 0 ==> Step(c, Left, width, height) == c
    ensures c.y == 0 ==> Step(c, Up, width, height) == c
    ensures c.x == width - 1 ==> Step(c, Right, width, height) == c
    ensures c.y == height - 1 ==> Step(c, Down, width, height) == c
  {
  }

  /** Every other move changes exactly one coordinate, by exactly one. */
  lemma InnerMovesChangeOneAxis(c: Cell, d: Direction, width: nat, height: nat)
    requires Within(c, width, height)
    requires Step(c, d, width, height) != c
    ensures var n := Step(c, d, width, height);
      (n.y == c.y && (n.x == c.x + 1 || n.x + 1 == c.x)) ||
      (n.x == c.x && (n.y == c.y + 1 || n.y + 1 == c.y))
  {
  }

  /** The positions a sequence of moves passes through ends here. */
  function Walk(c: Cell, ds: seq<Direction>, width: nat, height: nat): Cell
    decreases |ds|
  {
    if ds == [] then c else Walk(Step(c, ds[0], width, height), ds[1..], width, height)
  }

  /** No sequence of moves leaves the grid. */
  lemma {:induction false} WalkStaysWithin(c: Cell, ds: seq<Direction>, width: nat, height: nat)
    requires Within(c, width, height)
    ensures Within(Walk(c, ds, width, height), width, height)
    decreases |ds|
  {
    if ds != [] {
      WalkStaysWithin(Step(c, ds[0], width, height), ds[1..], width, height);
    }
  }

  lemma {:induction false} WalkAppend(c: Cell, a: seq<Direction>, b: seq<Direction>, width: nat, height: nat)
    ensures Walk(c, a + b, width, height) == Walk(Walk(c, a, width, height), b, width, height)
    decreases |a|
  {
    if a == [] {
      assert a + b == b;
    } else {
      assert (a + b)[1..] == a[1..] + b;
      WalkAppend(Step(c, a[0], width, height), a[1..], b, width, height);
    }
  }

  function Repeat(d: Direction, n: nat): (ds: seq<Direction>)
    ensures |ds| == n && forall i :: 0 <= i < n ==> ds[i] == d
  {
    if n == 0 then [] else [d] + Repeat(d, n - 1)
  }

  lemma {:induction false} WalkRightwards(c: Cell, n: nat, width: nat, height: nat)
    requires c.x + n < width
    ensures Walk(c, Repeat(Right, n), width, height) == Cell(c.x + n, c.y)
    decreases n
  {
    if n > 0 {
      WalkRightwards(Cell(c.x + 1, c.y), n - 1, width, height);
    }
  }

  lemma {:induction false} WalkDownwards(c: Cell, n: nat, width: nat, height: nat)
    requires c.y + n < height
    ensures Walk(c, Repeat(Down, n), width, height) == Cell(c.x, c.y + n)
    decreases n
  {
    if n > 0 {
      WalkDownwards(Cell(c.x, c.y + 1), n - 1, width, height);
    }
  }

  /** Every cell of the grid is reachable from the origin: i moves right, then j moves down. */
  lemma EveryCellReachable(i: nat, j: nat, width: nat, height: nat)
    requires Within(Cell(i, j), width, height)
    ensures Walk(Origin, Repeat(Right, i) + Repeat(Down, j), width, height) == Cell(i, j)
  {
    WalkAppend(Origin, Repeat(Right, i), Repeat(Down, j), width, height);
    WalkRightwards(Origin, i, width, height);
    WalkDownwards(Cell(i, 0), j, width, height);
  }

  /** Right, right, down from the origin of a 6 x 5 grid ends at (2, 1); left at the origin stays put. */
  lemma Scenario()
    ensures Walk(Origin, [Right, Right, Down], 6, 5) == Cell(2, 1)
    ensures Walk(Origin, [Left], 6, 5) == Origin
  {
    assert [Right, Right, Down][1..] == [Right, Down];
    assert [Right, Down][1..] == [Down];
  }
}
