/**
 * T-intersections whose branch is switched by a signal: the rail one steers
 * trains, the conveyor one steers resources. Each reads its input signal
 * into `isRightTurn`; the orientation getters are pure functions of that
 * flag and of the tile's orientation, which the game manager looks up and
 * which is a parameter here.
 */
module Intersections {
  import opened Grid

  class RailTIntersection {
    var isRightTurn: bool

    constructor ()
      ensures isRightTurn
    {
      isRightTurn := true;
    }

    /**
     * The two directions a train may hold on the tile now: straight along
     * the tile, and the branch the switch selects.
     */
    function GetCurrentTrainOrientations(tileOrientation: Vec2): (r: seq<Vec2>)
      reads this
      ensures |r| == 2 && r[0] == tileOrientation
      ensures Dot(r[1], tileOrientation) == 0
      ensures isRightTurn ==> r[1] == CounterClockwise(tileOrientation)
      ensures !isRightTurn ==> r[1] == Clockwise(tileOrientation)
    {
      if isRightTurn then [tileOrientation, CounterClockwise(tileOrientation)]
      else [tileOrientation, Clockwise(tileOrientation)]
    }

    /** Every direction the tile can ever carry, whichever way the switch is set. */
    function GetAllTrainOrientations(tileOrientation: Vec2): (r: seq<Vec2>)
      ensures |r| == 3 && r[0] == tileOrientation
      ensures Dot(r[1], tileOrientation) == 0 && Dot(r[2], tileOrientation) == 0
      ensures r[2] == r[1].Neg()
    {
      [tileOrientation, CounterClockwise(tileOrientation), Clockwise(tileOrientation)]
    }

    /** A signal of exactly 0 selects the right turn; anything else the left. */
    method WriteActuator(inputSignals: seq<int>)
      requires |inputSignals| >= 1
      modifies this
      ensures isRightTurn <==> inputSignals[0] == 0
    {
      isRightTurn := inputSignals[0] == 0;
    }
  }

  /** Whatever the switch says, the current directions are among all the tile's directions. */
  lemma RailCurrentInAll(rail: RailTIntersection, tileOrientation: Vec2)
    ensures forall o :: o in rail.GetCurrentTrainOrientations(tileOrientation) ==> o in rail.GetAllTrainOrientations(tileOrientation)
  {
    var all := rail.GetAllTrainOrientations(tileOrientation);
    assert all[1] == CounterClockwise(tileOrientation) && all[2] == Clockwise(tileOrientation);
  }

  /** For any non-zero (so any unit) orientation the three directions of the tile are pairwise distinct. */
  lemma RailAllDistinct(rail: RailTIntersection, tileOrientation: Vec2)
    requires tileOrientation != Zero
    ensures var all := rail.GetAllTrainOrientations(tileOrientation);
      all[0] != all[1] && all[0] != all[2] && all[1] != all[2]
  {
    var all := rail.GetAllTrainOrientations(tileOrientation);
    assert all[1] == CounterClockwise(tileOrientation) && all[2] == Clockwise(tileOrientation);
    TurnsDiffer(tileOrientation);
  }

  /** Flipping the switch changes only the branch, never the straight direction. */
  lemma RailSwitchKeepsStraight(a: RailTIntersection, b: RailTIntersection, tileOrientation: Vec2)
    requires tileOrientation != Zero && a.isRightTurn != b.isRightTurn
    ensures a.GetCurrentTrainOrientations(tileOrientation)[0] == b.GetCurrentTrainOrientations(tileOrientation)[0]
    ensures a.GetCurrentTrainOrientations(tileOrientation)[1] == b.GetCurrentTrainOrientations(tileOrientation)[1].Neg()
    ensures a.GetCurrentTrainOrientations(tileOrientation)[1] != b.GetCurrentTrainOrientations(tileOrientation)[1]
  {
    TurnsDiffer(tileOrientation);
  }

  class ConveyorBeltTIntersection {
    var isRightTurn: bool

    constructor ()
      ensures isRightTurn
    {
      isRightTurn := true;
    }

    /** The side a resource leaves by: a clockwise quarter turn for the right turn. */
    function GetNextExitOrientation(tileOrientation: Vec2): (r: Vec2)
      reads this
      ensures Dot(r, tileOrientation) == 0
      ensures isRightTurn ==> r == Clockwise(tileOrientation)
      ensures !isRightTurn ==> r == CounterClockwise(tileOrientation)
    {
      if isRightTurn then Clockwise(tileOrientation) else CounterClockwise(tileOrientation)
    }

    /** Both exits: the right turn first, then the left. */
    function GetExitOrientations(tileOrientation: Vec2): (r: seq<Vec2>)
      ensures |r| == 2
      ensures r[1] == r[0].Neg()
      ensures Dot(r[0], tileOrientation) == 0 && Dot(r[1], tileOrientation) == 0
    {
      [Clockwise(tileOrientation), CounterClockwise(tileOrientation)]
    }

    method WriteActuator(inputSignals: seq<int>)
      requires |inputSignals| >= 1
      modifies this
      ensures isRightTurn <==> inputSignals[0] == 0
    {
      isRightTurn := inputSignals[0] == 0;
    }
  }

  /** The exit taken is always one of the two exits. */
  lemma BeltNextExitIsExit(belt: ConveyorBeltTIntersection, tileOrientation: Vec2)
    ensures belt.GetNextExitOrientation(tileOrientation) in belt.GetExitOrientations(tileOrientation)
  {
    var exits := belt.GetExitOrientations(tileOrientation);
    assert exits[0] == Clockwise(tileOrientation) && exits[1] == CounterClockwise(tileOrientation);
  }

  /** A resource never leaves straight ahead, nor back the way the tile faces from. */
  lemma BeltExitTurns(belt: ConveyorBeltTIntersection, tileOrientation: Vec2)
    requires tileOrientation != Zero
    ensures belt.GetNextExitOrientation(tileOrientation) != tileOrientation
    ensures belt.GetNextExitOrientation(tileOrientation) != tileOrientation.Neg()
  {
    TurnsDiffer(tileOrientation);
  }
}
