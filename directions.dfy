/** Block positions and the six axis directions of the voxel grid. */
module Directions {
  datatype Pos = Pos(x: int, y: int, z: int)

  /** The six face directions, in the game's declaration order. */
  datatype Direction = Down | Up | North | South | West | East

  /** `Direction.ordinal()`. */
  function Ordinal(d: Direction): (i: nat)
    ensures i < 6
  {
    match d
    case Down => 0
    case Up => 1
    case North => 2
    case South => 3
    case West => 4
    case East => 5
  }

  /** The direction with a given ordinal. */
  function FromOrdinal(i: nat): (d: Direction)
    requires i < 6
    ensures Ordinal(d) == i
  {
    [Down, Up, North, South, West, East][i]
  }

  /** The unit offset of a direction (`getOffsetX/Y/Z`). */
  function Offset(d: Direction): Pos
  {
    match d
    case Down => Pos(0, -1, 0)
    case Up => Pos(0, 1, 0)
    case North => Pos(0, 0, -1)
    case South => Pos(0, 0, 1)
    case West => Pos(-1, 0, 0)
    case East => Pos(1, 0, 0)
  }

  /** `getOpposite()`: the direction whose offset points the other way. */
  function Opposite(d: Direction): (r: Direction)
    ensures r != d
    ensures Offset(r) == Pos(-Offset(d).x, -Offset(d).y, -Offset(d).z)
  {
    match d
    case Down => Up
    case Up => Down
    case North => South
    case South => North
    case West => East
    case East => West
  }

  /** The neighbouring position one block along `d`. */
  function Step(p: Pos, d: Direction): Pos
  {
    Pos(p.x + Offset(d).x, p.y + Offset(d).y, p.z + Offset(d).z)
  }

  /** Stepping to the neighbour and back along the opposite direction returns to the start. */
  lemma StepOppositeReturns(p: Pos, d: Direction)
    ensures Step(Step(p, d), Opposite(d)) == p
  {
  }
}
