/**
 * Tile coordinates and orientations (`Vector2Int`): the plane the structures,
 * rails and trains live on, with the rotations the game uses to turn an
 * orientation a quarter turn.
 */
module Grid {

  datatype Vec2 = Vec2(x: int, y: int)
  {
    function Plus(v: Vec2): Vec2 { Vec2(x + v.x, y + v.y) }
    function Minus(v: Vec2): Vec2 { Vec2(x - v.x, y - v.y) }
    function Neg(): Vec2 { Vec2(-x, -y) }
    function Times(k: int): Vec2 { Vec2(k * x, k * y) }
  }

  const Zero := Vec2(0, 0)

  /** The four unit orientations a structure can face. */
  predicate IsUnit(v: Vec2)
  {
    v == Vec2(1, 0) || v == Vec2(-1, 0) || v == Vec2(0, 1) || v == Vec2(0, -1)
  }

  /** A quarter turn clockwise: `(y, -x)`, the "relative right" of an orientation. */
  function Clockwise(v: Vec2): (r: Vec2)
    ensures Dot(r, v) == 0
    ensures IsUnit(v) ==> IsUnit(r)
  {
    assert v.y * v.x - v.x * v.y == 0;
    Vec2(v.y, -v.x)
  }

  /** A quarter turn counter-clockwise: `(-y, x)`. */
  function CounterClockwise(v: Vec2): (r: Vec2)
    ensures Dot(r, v) == 0
    ensures r == Clockwise(v).Neg()
  {
    assert -v.y * v.x + v.x * v.y == 0;
    Vec2(-v.y, v.x)
  }

  function Dot(a: Vec2, b: Vec2): int
  {
    a.x * b.x + a.y * b.y
  }

  /** For a non-zero vector, neither quarter turn is the vector itself or its opposite. */
  lemma TurnsDiffer(v: Vec2)
    requires v != Zero
    ensures Clockwise(v) != v && CounterClockwise(v) != v
    ensures Clockwise(v) != v.Neg() && CounterClockwise(v) != v.Neg()
    ensures Clockwise(v) != CounterClockwise(v)
  {
  }
}
