/**
 * The order of one simulation tick. A tick resets every channel of the
 * network, then reads every sensor, advances every processor's delay
 * register, processes every processor, writes every actuator and processes
 * every machine, each phase a `foreach` over one of the manager's per-tile
 * dictionaries. A tick is written here as the sequence of steps it runs:
 * what each step does to channels and registers is the contract of the
 * device method it names.
 */
module TickSchedule {
  import opened Grid
  import opened Lists
  import opened Structures
  import RecipeMachines

  /** One step of a tick, with the device it runs on. */
  datatype Step =
    | ResetChannels
    | ReadSensor(sensor: Sensor)
    | AdvanceQueue(processor: Processor)
    | ProcessSignals(processor: Processor)
    | WriteActuator(actuator: Actuator)
    | ProcessMachine(machine: RecipeMachines.RecipeMachine)

  /** The step of each phase on one device, as values to hand to `Block`. */
  function ReadStep(s: Sensor): Step { ReadSensor(s) }
  function AdvanceStep(p: Processor): Step { AdvanceQueue(p) }
  function ProcessStep(p: Processor): Step { ProcessSignals(p) }
  function WriteStep(a: Actuator): Step { WriteActuator(a) }
  function MachineStep(m: RecipeMachines.RecipeMachine): Step { ProcessMachine(m) }

  /** The phase of a tick a step belongs to, 0 to 5 in the order the phases run. */
  function Phase(s: Step): nat
  {
    match s
    case ResetChannels => 0
    case ReadSensor(_) => 1
    case AdvanceQueue(_) => 2
    case ProcessSignals(_) => 3
    case WriteActuator(_) => 4
    case ProcessMachine(_) => 5
  }

  /** `order` lists every key of the dictionary `m` once: the order a `foreach` over it takes. */
  predicate Enumerates<V>(order: seq<Vec2>, m: map<Vec2, V>)
  {
    Distinct(order) && (forall t :: t in order ==> t in m) && (forall t :: t in m ==> t in order)
  }

  /**
   * Every dictionary can be taken by a `foreach`: its keys in some order,
   * each once. Which order a dictionary hands out is not specified.
   */
  lemma {:induction false} EnumerationExists<V>(m: map<Vec2, V>)
    ensures exists order :: Enumerates(order, m)
    decreases |m|
  {
    if m.Keys == {} {
      assert Enumerates([], m);
    } else {
      var k :| k in m;
      var rest := m - {k};
      EnumerationExists(rest);
      var order :| Enumerates(order, rest);
      assert Enumerates([k] + order, m);
    }
  }

  /** The steps of one phase: `step` run on the device of each tile of `order`, in that order. */
  function Block<V>(m: map<Vec2, V>, order: seq<Vec2>, step: V -> Step): seq<Step>
    requires forall t :: t in order ==> t in m
  {
    seq(|order|, i requires 0 <= i < |order| => step(m[order[i]]))
  }

  /**
   * The steps of a tick whose phases take the dictionaries in the orders
   * given: the sensor phase over `sensors` in order `so`, and so on. A
   * machine is an actuator too, so it also has a step in the actuator phase.
   */
  function Schedule(sensors: map<Vec2, Sensor>, processors: map<Vec2, Processor>,
                    actuators: map<Vec2, Actuator>, machines: map<Vec2, RecipeMachines.RecipeMachine>,
                    so: seq<Vec2>, po: seq<Vec2>, ao: seq<Vec2>, mo: seq<Vec2>): seq<Step>
    requires Enumerates(so, sensors) && Enumerates(po, processors)
    requires Enumerates(ao, actuators) && Enumerates(mo, machines)
  {
    [ResetChannels]
    + Block(sensors, so, ReadStep)
    + Block(processors, po, AdvanceStep)
    + Block(processors, po, ProcessStep)
    + Block(actuators, ao, WriteStep)
    + Block(machines, mo, MachineStep)
  }

  /** The steps of `s` run phase by phase: no step comes after one of a later phase. */
  predicate InPhaseOrder(s: seq<Step>)
  {
    forall i, j :: 0 <= i < j < |s| ==> Phase(s[i]) <= Phase(s[j])
  }

  /** Every step of `b` belongs to phase `k`. */
  predicate AllInPhase(b: seq<Step>, k: nat)
  {
    forall y :: y in b ==> Phase(y) == k
  }

  /** Every step of one phase's block belongs to that phase. */
  lemma BlockPhase<V>(m: map<Vec2, V>, order: seq<Vec2>, step: V -> Step, k: nat)
    requires forall t :: t in order ==> t in m
    requires forall v :: Phase(step(v)) == k
    ensures AllInPhase(Block(m, order, step), k)
  {
  }

  /** Steps in phase order, all from phase `k` or before, followed by steps of phase `k`, are in phase order. */
  lemma Append(a: seq<Step>, b: seq<Step>, k: nat)
    requires InPhaseOrder(a) && (forall x :: x in a ==> Phase(x) <= k)
    requires AllInPhase(b, k)
    ensures InPhaseOrder(a + b) && forall x :: x in a + b ==> Phase(x) <= k
  {
    forall i, j | 0 <= i < j < |a + b|
      ensures Phase((a + b)[i]) <= Phase((a + b)[j])
    {
      if j >= |a| {
        assert (a + b)[j] == b[j - |a|];
        if i >= |a| {
          assert (a + b)[i] == b[i - |a|];
        } else {
          assert (a + b)[i] == a[i];
        }
      } else {
        assert (a + b)[i] == a[i] && (a + b)[j] == a[j];
      }
    }
  }

  /** A tick runs its phases in order: reset, sensors, registers, processing, actuators, machines. */
  lemma ScheduleInPhaseOrder(sensors: map<Vec2, Sensor>, processors: map<Vec2, Processor>,
                             actuators: map<Vec2, Actuator>, machines: map<Vec2, RecipeMachines.RecipeMachine>,
                             so: seq<Vec2>, po: seq<Vec2>, ao: seq<Vec2>, mo: seq<Vec2>)
    requires Enumerates(so, sensors) && Enumerates(po, processors)
    requires Enumerates(ao, actuators) && Enumerates(mo, machines)
    ensures var s := Schedule(sensors, processors, actuators, machines, so, po, ao, mo);
            && s[0] == ResetChannels && InPhaseOrder(s)
            && |s| == 1 + |sensors| + 2 * |processors| + |actuators| + |machines|
  {
    var b1 := Block(sensors, so, ReadStep);
    var b2 := Block(processors, po, AdvanceStep);
    var b3 := Block(processors, po, ProcessStep);
    var b4 := Block(actuators, ao, WriteStep);
    var b5 := Block(machines, mo, MachineStep);
    BlockPhase(sensors, so, ReadStep, 1);
    BlockPhase(processors, po, AdvanceStep, 2);
    BlockPhase(processors, po, ProcessStep, 3);
    BlockPhase(actuators, ao, WriteStep, 4);
    BlockPhase(machines, mo, MachineStep, 5);
    var s0 := [ResetChannels];
    Append(s0, b1, 1);
    Append(s0 + b1, b2, 2);
    Append(s0 + b1 + b2, b3, 3);
    Append(s0 + b1 + b2 + b3, b4, 4);
    Append(s0 + b1 + b2 + b3 + b4, b5, 5);
    KeysCount(so, sensors);
    KeysCount(po, processors);
    KeysCount(ao, actuators);
    KeysCount(mo, machines);
  }

  /** An enumeration is as long as the dictionary has keys. */
  lemma KeysCount<V>(order: seq<Vec2>, m: map<Vec2, V>)
    requires Enumerates(order, m)
    ensures |order| == |m|
  {
    var keys := set t | t in order;
    assert keys == m.Keys;
    DistinctCard(order);
  }

  lemma {:induction false} DistinctCard(order: seq<Vec2>)
    requires Distinct(order)
    ensures |set t | t in order| == |order|
  {
    if order != [] {
      DistinctCard(order[1..]);
      assert (set t | t in order) == {order[0]} + (set t | t in order[1..]);
    }
  }

  /** The tiles of `m` whose entry is `v`. */
  function TilesOf<V(==)>(m: map<Vec2, V>, v: V): set<Vec2>
  {
    set t | t in m && m[t] == v
  }

  /**
   * A phase visits a device once for every tile it holds in the dictionary:
   * in the block of a step function that tells devices apart, the step on
   * `v` occurs once per tile of `order` whose entry is `v`.
   */
  lemma {:induction false} BlockCount<V>(m: map<Vec2, V>, order: seq<Vec2>, step: V -> Step, v: V)
    requires forall t :: t in order ==> t in m
    requires Distinct(order)
    requires forall a, b :: step(a) == step(b) ==> a == b
    ensures multiset(Block(m, order, step))[step(v)] == |set t | t in order && m[t] == v|
  {
    if order != [] {
      BlockCount(m, order[1..], step, v);
      assert Block(m, order, step) == [step(m[order[0]])] + Block(m, order[1..], step);
      var here := set t | t in order && m[t] == v;
      var rest := set t | t in order[1..] && m[t] == v;
      if m[order[0]] == v {
        assert here == rest + {order[0]};
      } else {
        assert here == rest;
      }
    }
  }

  /** Taking every key of the dictionary, the tiles of the order holding `v` are the tiles of `v`. */
  lemma EnumeratedTiles<V>(order: seq<Vec2>, m: map<Vec2, V>, v: V)
    requires Enumerates(order, m)
    ensures (set t | t in order && m[t] == v) == TilesOf(m, v)
  {
  }

  /** A block of one phase has no step of another phase. */
  lemma Lacks(b: seq<Step>, k: nat, x: Step)
    requires AllInPhase(b, k) && Phase(x) != k
    ensures multiset(b)[x] == 0
  {
  }

  /**
   * Reset followed by five blocks, block `i` all of phase `i`: a step occurs
   * as often as it does in the block of its own phase, and reset once.
   */
  lemma Counted(b1: seq<Step>, b2: seq<Step>, b3: seq<Step>, b4: seq<Step>, b5: seq<Step>, x: Step)
    requires AllInPhase(b1, 1) && AllInPhase(b2, 2) && AllInPhase(b3, 3)
    requires AllInPhase(b4, 4) && AllInPhase(b5, 5)
    ensures var c := multiset([ResetChannels] + b1 + b2 + b3 + b4 + b5)[x];
            && (Phase(x) == 0 ==> c == 1)
            && (Phase(x) == 1 ==> c == multiset(b1)[x])
            && (Phase(x) == 2 ==> c == multiset(b2)[x])
            && (Phase(x) == 3 ==> c == multiset(b3)[x])
            && (Phase(x) == 4 ==> c == multiset(b4)[x])
            && (Phase(x) == 5 ==> c == multiset(b5)[x])
  {
    assert multiset([ResetChannels] + b1 + b2 + b3 + b4 + b5)
           == multiset([ResetChannels]) + multiset(b1) + multiset(b2) + multiset(b3) + multiset(b4) + multiset(b5);
    if Phase(x) != 1 { Lacks(b1, 1, x); }
    if Phase(x) != 2 { Lacks(b2, 2, x); }
    if Phase(x) != 3 { Lacks(b3, 3, x); }
    if Phase(x) != 4 { Lacks(b4, 4, x); }
    if Phase(x) != 5 { Lacks(b5, 5, x); }
  }

  /**
   * Each phase visits a device once per tile it holds in its dictionary: a
   * machine on four tiles is processed four times in a tick, and written
   * four times as an actuator; a processor's register is advanced, and the
   * processor processed, once per tile. The channels are reset once.
   */
  lemma VisitsPerTile(sensors: map<Vec2, Sensor>, processors: map<Vec2, Processor>,
                      actuators: map<Vec2, Actuator>, machines: map<Vec2, RecipeMachines.RecipeMachine>,
                      so: seq<Vec2>, po: seq<Vec2>, ao: seq<Vec2>, mo: seq<Vec2>)
    requires Enumerates(so, sensors) && Enumerates(po, processors)
    requires Enumerates(ao, actuators) && Enumerates(mo, machines)
    ensures var s := multiset(Schedule(sensors, processors, actuators, machines, so, po, ao, mo));
            && s[ResetChannels] == 1
            && (forall x :: s[ReadSensor(x)] == |TilesOf(sensors, x)|)
            && (forall p :: s[AdvanceQueue(p)] == |TilesOf(processors, p)|)
            && (forall p :: s[ProcessSignals(p)] == |TilesOf(processors, p)|)
            && (forall a :: s[WriteActuator(a)] == |TilesOf(actuators, a)|)
            && (forall m :: s[ProcessMachine(m)] == |TilesOf(machines, m)|)
  {
    InputVisits(sensors, processors, actuators, machines, so, po, ao, mo);
    OutputVisits(sensors, processors, actuators, machines, so, po, ao, mo);
  }

  /** The processor on any tile of the processor dictionary has a step in the processing phase. */
  lemma ProcessedOnTile(sensors: map<Vec2, Sensor>, processors: map<Vec2, Processor>,
                        actuators: map<Vec2, Actuator>, machines: map<Vec2, RecipeMachines.RecipeMachine>,
                        so: seq<Vec2>, po: seq<Vec2>, ao: seq<Vec2>, mo: seq<Vec2>, t: Vec2)
    requires Enumerates(so, sensors) && Enumerates(po, processors)
    requires Enumerates(ao, actuators) && Enumerates(mo, machines)
    requires t in processors
    ensures multiset(Schedule(sensors, processors, actuators, machines, so, po, ao, mo))[ProcessSignals(processors[t])] >= 1
  {
    InputVisits(sensors, processors, actuators, machines, so, po, ao, mo);
    assert t in TilesOf(processors, processors[t]);
  }

  /** The reset, sensor and processor part of `VisitsPerTile`. */
  lemma InputVisits(sensors: map<Vec2, Sensor>, processors: map<Vec2, Processor>,
                      actuators: map<Vec2, Actuator>, machines: map<Vec2, RecipeMachines.RecipeMachine>,
                      so: seq<Vec2>, po: seq<Vec2>, ao: seq<Vec2>, mo: seq<Vec2>)
    requires Enumerates(so, sensors) && Enumerates(po, processors)
    requires Enumerates(ao, actuators) && Enumerates(mo, machines)
    ensures var s := multiset(Schedule(sensors, processors, actuators, machines, so, po, ao, mo));
            && s[ResetChannels] == 1
            && (forall x :: s[ReadSensor(x)] == |TilesOf(sensors, x)|)
            && (forall p :: s[AdvanceQueue(p)] == |TilesOf(processors, p)|)
            && (forall p :: s[ProcessSignals(p)] == |TilesOf(processors, p)|)
  {
    var b1 := Block(sensors, so, ReadStep);
    var b2 := Block(processors, po, AdvanceStep);
    var b3 := Block(processors, po, ProcessStep);
    var b4 := Block(actuators, ao, WriteStep);
    var b5 := Block(machines, mo, MachineStep);
    BlockPhase(sensors, so, ReadStep, 1);
    BlockPhase(processors, po, AdvanceStep, 2);
    BlockPhase(processors, po, ProcessStep, 3);
    BlockPhase(actuators, ao, WriteStep, 4);
    BlockPhase(machines, mo, MachineStep, 5);
    var s := multiset([ResetChannels] + b1 + b2 + b3 + b4 + b5);
    Counted(b1, b2, b3, b4, b5, ResetChannels);
    forall x ensures s[ReadSensor(x)] == |TilesOf(sensors, x)| {
      Counted(b1, b2, b3, b4, b5, ReadSensor(x));
      EnumeratedCount(sensors, so, ReadStep, x);
    }
    forall p ensures s[AdvanceQueue(p)] == |TilesOf(processors, p)| {
      Counted(b1, b2, b3, b4, b5, AdvanceQueue(p));
      EnumeratedCount(processors, po, AdvanceStep, p);
    }
    forall p ensures s[ProcessSignals(p)] == |TilesOf(processors, p)| {
      Counted(b1, b2, b3, b4, b5, ProcessSignals(p));
      EnumeratedCount(processors, po, ProcessStep, p);
    }
  }

  /** The actuator and machine part of `VisitsPerTile`. */
  lemma OutputVisits(sensors: map<Vec2, Sensor>, processors: map<Vec2, Processor>,
                      actuators: map<Vec2, Actuator>, machines: map<Vec2, RecipeMachines.RecipeMachine>,
                      so: seq<Vec2>, po: seq<Vec2>, ao: seq<Vec2>, mo: seq<Vec2>)
    requires Enumerates(so, sensors) && Enumerates(po, processors)
    requires Enumerates(ao, actuators) && Enumerates(mo, machines)
    ensures var s := multiset(Schedule(sensors, processors, actuators, machines, so, po, ao, mo));
            && (forall a :: s[WriteActuator(a)] == |TilesOf(actuators, a)|)
            && (forall m :: s[ProcessMachine(m)] == |TilesOf(machines, m)|)
  {
    var b1 := Block(sensors, so, ReadStep);
    var b2 := Block(processors, po, AdvanceStep);
    var b3 := Block(processors, po, ProcessStep);
    var b4 := Block(actuators, ao, WriteStep);
    var b5 := Block(machines, mo, MachineStep);
    BlockPhase(sensors, so, ReadStep, 1);
    BlockPhase(processors, po, AdvanceStep, 2);
    BlockPhase(processors, po, ProcessStep, 3);
    BlockPhase(actuators, ao, WriteStep, 4);
    BlockPhase(machines, mo, MachineStep, 5);
    var s := multiset([ResetChannels] + b1 + b2 + b3 + b4 + b5);
    forall a ensures s[WriteActuator(a)] == |TilesOf(actuators, a)| {
      Counted(b1, b2, b3, b4, b5, WriteActuator(a));
      EnumeratedCount(actuators, ao, WriteStep, a);
    }
    forall m ensures s[ProcessMachine(m)] == |TilesOf(machines, m)| {
      Counted(b1, b2, b3, b4, b5, ProcessMachine(m));
      EnumeratedCount(machines, mo, MachineStep, m);
    }
  }

  /** Over a whole dictionary, a phase runs its step on `v` once per tile holding `v`. */
  lemma EnumeratedCount<V>(m: map<Vec2, V>, order: seq<Vec2>, step: V -> Step, v: V)
    requires Enumerates(order, m)
    requires forall a, b :: step(a) == step(b) ==> a == b
    ensures multiset(Block(m, order, step))[step(v)] == |TilesOf(m, v)|
  {
    BlockCount(m, order, step, v);
    EnumeratedTiles(order, m, v);
  }

  /** The processors whose `Process` a sequence of steps runs in the processing phase. */
  ghost function ProcessedBy(steps: seq<Step>): set<Processor>
  {
    set s | s in steps && s.ProcessSignals? :: s.processor
  }

  /**
   * Step `s` runs `q`'s `Process`: it is `q`'s own processing step, or the
   * step of the processor chained to feed `q`, whose `Process` sends its
   * signal down the link and then calls `q`'s.
   */
  ghost predicate RunsProcess(s: Step, q: Processor)
    reads if s.ProcessSignals? then {s.processor} else {}
  {
    s.ProcessSignals? && (s.processor == q || s.processor.chainedOutputProcessor == q)
  }

  /** How many of `steps` run `q`'s `Process`, from its own step or from its feeder's. */
  ghost function ProcessRuns(steps: seq<Step>, q: Processor): nat
    reads ProcessedBy(steps)
  {
    if |steps| == 0 then 0
    else
      var n := |steps| - 1;
      assert ProcessedBy(steps[..n]) <= ProcessedBy(steps) by {
        forall s | s in steps[..n] ensures s in steps { }
      }
      ProcessRuns(steps[..n], q) + (if RunsProcess(steps[n], q) then 1 else 0)
  }

  /** A step that runs `q`'s `Process` is counted. */
  lemma {:induction false} OneProcessRun(steps: seq<Step>, q: Processor, i: nat)
    requires i < |steps| && RunsProcess(steps[i], q)
    ensures ProcessRuns(steps, q) >= 1
    decreases |steps|
  {
    var n := |steps| - 1;
    if i < n {
      assert steps[..n][i] == steps[i];
      OneProcessRun(steps[..n], q, i);
    }
  }

  /** Two steps that run `q`'s `Process` are both counted. */
  lemma {:induction false} TwoProcessRuns(steps: seq<Step>, q: Processor, i: nat, j: nat)
    requires i < j < |steps| && RunsProcess(steps[i], q) && RunsProcess(steps[j], q)
    ensures ProcessRuns(steps, q) >= 2
    decreases |steps|
  {
    var n := |steps| - 1;
    assert steps[..n][i] == steps[i];
    if j < n {
      assert steps[..n][j] == steps[j];
      TwoProcessRuns(steps[..n], q, i, j);
    } else {
      OneProcessRun(steps[..n], q, i);
    }
  }

  /**
   * A tick with a processing step for `q` and one for the processor `p`
   * feeding it runs `q`'s `Process` at least twice, whichever comes first.
   */
  lemma ChainedRunsTwice(steps: seq<Step>, p: Processor, q: Processor)
    requires p != q && p.chainedOutputProcessor == q
    requires ProcessSignals(p) in steps && ProcessSignals(q) in steps
    ensures ProcessRuns(steps, q) >= 2
  {
    var i :| 0 <= i < |steps| && steps[i] == ProcessSignals(p);
    var j :| 0 <= j < |steps| && steps[j] == ProcessSignals(q);
    assert RunsProcess(steps[i], q) && RunsProcess(steps[j], q);
    if i < j {
      TwoProcessRuns(steps, q, i, j);
    } else {
      TwoProcessRuns(steps, q, j, i);
    }
  }
}
