/**
 * The grid geometry and the farmer's cursor: 18 columns by 14 rows, and the
 * arrow keys that move the cursor one cell, never off the grid.
 */
module Grid {

  const COLS: int := 18
  const ROWS: int := 14

  /** A cell address (column, row); the source keys its map by the string "col-row". */
  type Coord = (int, int)

  predicate InGrid(c: Coord) {
    0 <= c.0 < COLS && 0 <= c.1 < ROWS
  }

  datatype Direction = Up | Right | Left | Down

  /** The unit move of each arrow key; rows grow downwards. */
  function Offset(d: Direction): (r: Coord) {
    match d
    case Up => (0, -1)
    case Right => (1, 0)
    case Left => (-1, 0)
    case Down => (0, 1)
  }

  function Opposite(d: Direction): (r: Direction) {
    match d
    case Up => Down
    case Right => Left
    case Left => Right
    case Down => Up
  }

  /** The cursor stands on the border the arrow points at. */
  predicate AtEdge(c: Coord, d: Direction) {
    match d
    case Up => c.1 == 0
    case Right => c.0 == COLS - 1
    case Left => c.0 == 0
    case Down => c.1 == ROWS - 1
  }

  /**
   * One arrow key press (the UP/RIGHT/LEFT/DOWN cases of the key handler):
   * a unit step in the arrow's direction, or nothing at the edge.
   */
  function Step(c: Coord, d: Direction): (r: Coord) {
    match d
    case Up => if c.1 > 0 then (c.0, c.1 - 1) else c
    case Right => if c.0 < COLS - 1 then (c.0 + 1, c.1) else c
    case Left => if c.0 > 0 then (c.0 - 1, c.1) else c
    case Down => if c.1 < ROWS - 1 then (c.0, c.1 + 1) else c
  }

  /** A move never leaves the grid. */
  lemma StepInGrid(c: Coord, d: Direction)
    requires InGrid(c)
    ensures InGrid(Step(c, d))
  {
  }

  /**
   * A move changes one coordinate by exactly one, in the arrow's direction,
   * and is a no-op exactly at the edge the arrow points at.
   */
  lemma StepMoves(c: Coord, d: Direction)
    requires InGrid(c)
    ensures Step(c, d) == c <==> AtEdge(c, d)
    ensures Step(c, d) != c ==> Step(c, d) == (c.0 + Offset(d).0, c.1 + Offset(d).1)
  {
  }

  /** Away from the edge, the opposite arrow undoes a move. */
  lemma StepBack(c: Coord, d: Direction)
    requires InGrid(c) && !AtEdge(c, d)
    ensures Step(Step(c, d), Opposite(d)) == c
  {
  }
}
