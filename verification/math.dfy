/** Integer vectors and the small arithmetic helpers the drag logic is stated with.
    `Vector2` stands for the program's `MathVector2D<int>`. */
module Math {

  datatype Vector2 = Vector2(x: int, y: int)

  function Min(a: int, b: int): (r: int)
    ensures r <= a && r <= b
    ensures r == a || r == b
  {
    if a <= b then a else b
  }

  function Max(a: int, b: int): (r: int)
    ensures a <= r && b <= r
    ensures r == a || r == b
  {
    if a <= b then b else a
  }

  /** Distance between two integers on the number line. */
  function Dist(a: int, b: int): (r: nat)
    ensures r == a - b || r == b - a
  {
    if a >= b then a - b else b - a
  }

  /** The C `int` range (32-bit two's complement). */
  predicate IsInt32(v: int) {
    -0x8000_0000 <= v < 0x8000_0000
  }
}
