/** A block position, shared by the modules that speak of cells. */
module Positions {
  datatype Pos = Pos(x: int, y: int, z: int)
}
