/**
 * The two signal devices built into rails. A rail keeps the list of trains
 * currently on it (`trains`, maintained by the rail base class as trains
 * enter and leave); the detector turns that list into a signal and the stop
 * turns a signal into braking and releasing those trains.
 */
module RailDevices {
  import opened Trains

  class TrainDetector {
    var weightMode: bool
    var trains: seq<Train>

    constructor ()
      ensures !weightMode && trains == []
    {
      weightMode := false;
      trains := [];
    }

    /** 1 while a train is on the rail; weight mode is a placeholder that always reads 0. */
    function ReadSensor(): (r: int)
      reads this
      ensures r == 0 || r == 1
      ensures weightMode ==> r == 0
      ensures !weightMode ==> (r == 1 <==> trains != [])
    {
      if weightMode then 0 else if |trains| > 0 then 1 else 0
    }

    /** Switches between presence and weight detection. */
    method ModifyValue()
      modifies this`weightMode
      ensures weightMode == !old(weightMode)
    {
      weightMode := !weightMode;
    }
  }

  /** Toggling twice gives back the original mode, and so the original reading. */
  method ModifyValueTwice(detector: TrainDetector)
    modifies detector`weightMode
    ensures detector.weightMode == old(detector.weightMode)
    ensures detector.ReadSensor() == old(detector.ReadSensor())
  {
    detector.ModifyValue();
    detector.ModifyValue();
  }

  class TrainStop {
    var stopTrain: bool
    var trains: seq<Train>

    constructor ()
      ensures stopTrain && trains == []
    {
      stopTrain := true;
      trains := [];
    }

    /** A train arriving brakes to stop within two half segments while the stop holds, and is released otherwise. */
    method OnTrainEnter(train: Train)
      modifies train`isBraking, train`actualDeceleration
      ensures train.isBraking == (stopTrain || (old(train.isBraking) && train.isCrashed))
      ensures !stopTrain ==> train.actualDeceleration == old(train.actualDeceleration)
      ensures stopTrain ==>
                var distance := 2.0 - (train.headInterpolation - train.headInterpolation.Floor as real);
                train.actualDeceleration == RequiredDeceleration(train.speed, distance)
    {
      if stopTrain {
        train.Brake(2.0);
      } else {
        train.Accelerate();
      }
    }

    /**
     * A positive signal holds trains. When the signal drops and the stop was
     * holding, every train on the rail is released (a crashed one stays
     * braked); otherwise no train is touched. Only the trains' brake flags
     * can change.
     */
    method WriteActuator(inputSignals: seq<int>)
      requires |inputSignals| >= 1
      modifies this`stopTrain, (set t | t in trains)`isBraking
      ensures stopTrain <==> inputSignals[0] > 0
      ensures var release := old(stopTrain) && inputSignals[0] <= 0;
        forall t :: t in trains ==> t.isBraking == (old(t.isBraking) && (!release || t.isCrashed))
      ensures forall t :: t in trains ==> t.isCrashed == old(t.isCrashed) && t.speed == old(t.speed)
    {
      if inputSignals[0] > 0 {
        stopTrain := true;
      } else {
        if stopTrain {
          for i := 0 to |trains|
            invariant forall j :: 0 <= j < i ==> trains[j].isBraking == (old(trains[j].isBraking) && trains[j].isCrashed)
            invariant forall t :: t in trains && t !in trains[..i] ==> t.isBraking == old(t.isBraking)
            invariant forall t :: t in trains ==> t.isCrashed == old(t.isCrashed) && t.speed == old(t.speed)
          {
            trains[i].Accelerate();
          }
        }
        stopTrain := false;
      }
    }
  }
}
