/**
 * A train's path bookkeeping. The train occupies the tiles of `tilesPath`,
 * oldest first, with its head on the last one; `pathHalfSegments` holds the
 * points between which the carts are interpolated: a point on each tile's
 * centre and one on every border crossed, so a path of n tiles has 2n + 1
 * points. Points are kept in half-tile units (the source's (x, 0, z) times
 * two), which makes every point of the path an integer pair.
 *
 * The game manager's answers about tiles (which directions a rail tile
 * carries, whether a train may be built on it) are passed in as functions,
 * and the tiles a train enters and leaves are returned to the caller, which
 * keeps the per-rail train lists.
 */
module Trains {
  import opened Grid

  datatype HalfPoint = HalfPoint(x2: int, z2: int)

  /** The centre of a tile. */
  function Centre(tile: Vec2): HalfPoint
  {
    HalfPoint(2 * tile.x, 2 * tile.y)
  }

  /** The border point half a tile from the centre of `tile` along `o`. */
  function Border(tile: Vec2, o: Vec2): HalfPoint
  {
    HalfPoint(2 * tile.x + o.x, 2 * tile.y + o.y)
  }

  function Sign(a: int): int
  {
    if a > 0 then 1 else if a < 0 then -1 else 0
  }

  /**
   * `Vector2Int.RoundToInt` of a vector's `normalized` value: a component
   * rounds to its sign when it is more than half the length, that is when
   * three times its square exceeds the other's square, and to 0 otherwise.
   * The zero vector normalises to zero.
   */
  function RoundDirection(dx: int, dz: int): (r: Vec2)
    ensures -1 <= r.x <= 1 && -1 <= r.y <= 1
    ensures IsUnit(Vec2(dx, dz)) ==> r == Vec2(dx, dz)
    ensures dx == 0 && dz == 0 ==> r == Zero
  {
    Vec2(if 3 * dx * dx > dz * dz then Sign(dx) else 0,
         if 3 * dz * dz > dx * dx then Sign(dz) else 0)
  }

  /** The oriention queries answer with no direction, or with at least two. */
  ghost predicate WellAnswered(orientationsAt: Vec2 -> seq<Vec2>)
  {
    forall t :: |orientationsAt(t)| == 0 || |orientationsAt(t)| >= 2
  }

  /** A rail the game lets a train be built on carries two directions. */
  ghost predicate BuildableAnswered(orientationsAt: Vec2 -> seq<Vec2>, canBuildAt: Vec2 -> bool)
  {
    forall t :: canBuildAt(t) ==> |orientationsAt(t)| >= 2
  }

  /** The deceleration that stops a train at `speed` within `distance`: v^2 / (2 d). */
  function RequiredDeceleration(speed: real, distance: real): (r: real)
    requires distance > 0.0
    ensures r >= 0.0
    ensures 2.0 * r * distance == speed * speed
  {
    speed * speed / (2.0 * distance)
  }

  class Cart { }

  class Train {
    var carts: seq<Cart>
    var maxSpeed: real
    var speed: real
    var acceleration: real
    var deceleration: real
    var actualDeceleration: real
    var isBraking: bool
    var isCrashed: bool
    var tilesPath: seq<Vec2>
    var pathHalfSegments: seq<HalfPoint>
    var headInterpolation: real
    var headOrientation: Vec2

    /** Two points per tile plus the head's border point. */
    predicate PathShape()
      reads this
    {
      |pathHalfSegments| == 2 * |tilesPath| + 1
    }

    constructor ()
      ensures carts == [] && tilesPath == [] && pathHalfSegments == []
      ensures maxSpeed == 1.0 && speed == 0.0 && acceleration == 0.1 && deceleration == 0.1
      ensures isBraking && !isCrashed
    {
      carts := [];
      maxSpeed := 1.0;
      speed := 0.0;
      acceleration := 0.1;
      deceleration := 0.1;
      actualDeceleration := 0.0;
      isBraking := true;
      isCrashed := false;
      tilesPath := [];
      pathHalfSegments := [];
      headInterpolation := 0.0;
      headOrientation := Zero;
    }

    /**
     * Places the train on one tile facing `initialOrientation`, then adds the
     * locomotive, which extends the path by one tile behind when the game
     * allows a train there.
     */
    method Initialize(initialTile: Vec2, initialOrientation: Vec2, locomotive: Cart,
                      orientationsAt: Vec2 -> seq<Vec2>, canBuildAt: Vec2 -> bool)
      returns (entered: seq<Vec2>)
      requires !isCrashed && tilesPath == [] && pathHalfSegments == []
      requires BuildableAnswered(orientationsAt, canBuildAt)
      modifies this
      ensures PathShape() && headOrientation == initialOrientation
      ensures |tilesPath| == 1 || |tilesPath| == 2
      ensures tilesPath[|tilesPath| - 1] == initialTile
      ensures |tilesPath| == 1 ==> headInterpolation == 2.0 && carts == old(carts)
      ensures |tilesPath| == 2 ==> headInterpolation == 4.0 && carts == old(carts) + [locomotive]
      ensures entered == [initialTile] || entered == [tilesPath[0], initialTile]
    {
      tilesPath := tilesPath + [initialTile];
      pathHalfSegments := pathHalfSegments + [Border(initialTile, initialOrientation.Neg()), Centre(initialTile), Border(initialTile, initialOrientation)];
      headInterpolation := 2.0;
      headOrientation := initialOrientation;
      var added, tile := AddCart(locomotive, -1, orientationsAt, canBuildAt);
      entered := if added then [tile, initialTile] else [initialTile];
    }

    /**
     * Moves the head onto `newTile` if the tile carries the head's direction:
     * the head turns to the tile's other direction, the tile and its two
     * points are appended and the oldest tile is stepped out of. Otherwise
     * the train crashes and its head is parked at the end of the path.
     */
    method AdvancePath(newTile: Vec2, orientationsAt: Vec2 -> seq<Vec2>) returns (ok: bool, exited: Vec2)
      requires PathShape() && |tilesPath| >= 1
      requires WellAnswered(orientationsAt)
      modifies this
      ensures ok <==> old(headOrientation) in orientationsAt(newTile)
      ensures ok ==> tilesPath == old(tilesPath)[1..] + [newTile] && exited == old(tilesPath)[0]
      ensures ok ==> pathHalfSegments == old(pathHalfSegments)[2..] + [Centre(newTile), Border(newTile, headOrientation)]
      ensures ok ==> headOrientation.Neg() in orientationsAt(newTile) && headInterpolation == old(headInterpolation) - 2.0
      ensures ok ==> var os := orientationsAt(newTile);
        headOrientation == (if os[0] == old(headOrientation) then os[1].Neg() else os[0].Neg())
      ensures ok && |orientationsAt(newTile)| == 2 && orientationsAt(newTile)[0] != orientationsAt(newTile)[1] ==>
        headOrientation != old(headOrientation).Neg()
      ensures ok ==> isCrashed == old(isCrashed) && speed == old(speed)
      ensures !ok ==> tilesPath == old(tilesPath) && pathHalfSegments == old(pathHalfSegments)
      ensures !ok ==> isCrashed && isBraking && speed == 0.0 && headInterpolation == (|pathHalfSegments| - 1) as real
      ensures PathShape() && |tilesPath| == |old(tilesPath)|
      ensures carts == old(carts)
    {
      var newOrientations := orientationsAt(newTile);
      if headOrientation in newOrientations {
        headOrientation := if newOrientations[0] == headOrientation then newOrientations[1].Neg() else newOrientations[0].Neg();
        assert headOrientation.Neg() in newOrientations;
        tilesPath := tilesPath + [newTile];
        pathHalfSegments := pathHalfSegments + [Centre(newTile), Border(newTile, headOrientation)];
        exited := StepOutOfTile(0);
        ok := true;
      } else {
        Crash();
        headInterpolation := (|pathHalfSegments| - 1) as real;
        ok := false;
        exited := Zero;
      }
    }

    /** Leaves the tile at `index`: the tile and its first two points go, the head moves back two points. */
    method StepOutOfTile(index: nat) returns (exited: Vec2)
      requires index < |tilesPath| && 2 * index + 2 <= |pathHalfSegments|
      modifies this`tilesPath, this`pathHalfSegments, this`headInterpolation
      ensures exited == old(tilesPath)[index]
      ensures tilesPath == old(tilesPath)[..index] + old(tilesPath)[index + 1..]
      ensures pathHalfSegments == old(pathHalfSegments)[..index] + old(pathHalfSegments)[index + 2..]
      ensures headInterpolation == old(headInterpolation) - 2.0
      ensures old(PathShape()) ==> PathShape()
    {
      exited := tilesPath[index];
      headInterpolation := headInterpolation - 2.0;
      tilesPath := tilesPath[..index] + tilesPath[index + 1..];
      pathHalfSegments := pathHalfSegments[..index] + pathHalfSegments[index + 1..];
      pathHalfSegments := pathHalfSegments[..index] + pathHalfSegments[index + 1..];
    }

    /** Releases the brake, unless the train has crashed. */
    method Accelerate()
      modifies this`isBraking
      ensures isBraking == (old(isBraking) && isCrashed)
    {
      if isCrashed {
        return;
      }
      isBraking := false;
    }

    /**
     * Applies the brake. With a distance, the deceleration is the one that
     * stops the train within that many half segments of the head's current
     * half segment; without one it is the train's own deceleration.
     */
    method Brake(maxHalfSegments: real)
      requires maxHalfSegments == 0.0 || maxHalfSegments >= 1.0
      modifies this`isBraking, this`actualDeceleration
      ensures isBraking
      ensures maxHalfSegments == 0.0 ==> actualDeceleration == deceleration
      ensures maxHalfSegments != 0.0 ==>
        var distance := maxHalfSegments - (headInterpolation - headInterpolation.Floor as real);
        distance > 0.0 && actualDeceleration == RequiredDeceleration(speed, distance)
        && 2.0 * actualDeceleration * distance == speed * speed
    {
      isBraking := true;
      if maxHalfSegments != 0.0 {
        var maxBrakingDistance := maxHalfSegments - (headInterpolation - headInterpolation.Floor as real);
        actualDeceleration := RequiredDeceleration(speed, maxBrakingDistance);
      } else {
        actualDeceleration := deceleration;
      }
    }

    /**
     * Adds a cart at the tail: the tile behind the tail becomes the new first
     * tile, provided the game allows a train there and the train has not
     * crashed. The new tail point follows the direction of that tile that
     * does not lead back into the train.
     */
    method AddCart(cart: Cart, index: int, orientationsAt: Vec2 -> seq<Vec2>, canBuildAt: Vec2 -> bool)
      returns (ok: bool, entered: Vec2)
      requires PathShape() && |tilesPath| >= 1
      requires BuildableAnswered(orientationsAt, canBuildAt)
      modifies this`tilesPath, this`pathHalfSegments, this`headInterpolation, this`carts
      ensures var first := old(pathHalfSegments)[0];
        var second := old(pathHalfSegments)[1];
        var newTile := old(tilesPath)[0].Minus(RoundDirection(second.x2 - first.x2, second.z2 - first.z2));
        ok <==> !isCrashed && canBuildAt(newTile)
      ensures var first := old(pathHalfSegments)[0];
        var second := old(pathHalfSegments)[1];
        ok ==> entered == old(tilesPath)[0].Minus(RoundDirection(second.x2 - first.x2, second.z2 - first.z2))
      ensures ok ==> canBuildAt(entered) && |orientationsAt(entered)| >= 2
      ensures ok ==> tilesPath == [entered] + old(tilesPath) && headInterpolation == old(headInterpolation) + 2.0
      ensures ok ==> |pathHalfSegments| == |old(pathHalfSegments)| + 2
      ensures ok ==> pathHalfSegments[2..] == old(pathHalfSegments) && pathHalfSegments[1] == Centre(entered)
      ensures ok ==> var first := old(pathHalfSegments)[0];
        var second := old(pathHalfSegments)[1];
        var back := RoundDirection(second.x2 - first.x2, second.z2 - first.z2);
        var os := orientationsAt(entered);
        var tail := if back == os[0].Neg() then os[1] else os[0];
        pathHalfSegments[0] == Border(entered, tail.Neg())
      ensures ok && 0 <= index < |old(carts)| ==> carts == old(carts)[..index] + [cart] + old(carts)[index..]
      ensures ok && !(0 <= index < |old(carts)|) ==> carts == old(carts) + [cart]
      ensures !ok ==> tilesPath == old(tilesPath) && pathHalfSegments == old(pathHalfSegments)
      ensures !ok ==> headInterpolation == old(headInterpolation) && carts == old(carts)
      ensures PathShape()
    {
      if isCrashed {
        return false, Zero;
      }
      var first, second := pathHalfSegments[0], pathHalfSegments[1];
      var tailOrientation := RoundDirection(second.x2 - first.x2, second.z2 - first.z2);
      var newTile := tilesPath[0].Minus(tailOrientation);
      var newOrientations := orientationsAt(newTile);
      if !canBuildAt(newTile) {
        return false, Zero;
      }
      tailOrientation := if tailOrientation == newOrientations[0].Neg() then newOrientations[1] else newOrientations[0];
      tilesPath := [newTile] + tilesPath;
      pathHalfSegments := [Border(newTile, tailOrientation.Neg()), Centre(newTile)] + pathHalfSegments;
      headInterpolation := headInterpolation + 2.0;
      if 0 <= index < |carts| {
        carts := carts[..index] + [cart] + carts[index..];
      } else {
        carts := carts + [cart];
      }
      ok, entered := true, newTile;
    }

    /** Stops the train for good. */
    method Crash()
      modifies this`speed, this`isBraking, this`isCrashed
      ensures speed == 0.0 && isBraking && isCrashed
    {
      speed := 0.0;
      isBraking := true;
      isCrashed := true;
    }

    /** Steps out of every tile, oldest first; the last point of the path remains. */
    method DestroyTrain() returns (exited: seq<Vec2>)
      requires PathShape()
      modifies this`tilesPath, this`pathHalfSegments, this`headInterpolation
      ensures exited == old(tilesPath)
      ensures tilesPath == [] && pathHalfSegments == old(pathHalfSegments)[2 * |old(tilesPath)|..]
      ensures headInterpolation == old(headInterpolation) - 2.0 * |old(tilesPath)| as real
      ensures PathShape()
    {
      exited := [];
      var i := |tilesPath|;
      while i > 0
        invariant 0 <= i == |tilesPath| && PathShape()
        invariant old(tilesPath) == exited + tilesPath
        invariant pathHalfSegments == old(pathHalfSegments)[2 * |exited|..]
        invariant headInterpolation == old(headInterpolation) - 2.0 * |exited| as real
      {
        var tile := StepOutOfTile(0);
        exited := exited + [tile];
        i := i - 1;
      }
    }
  }
}
