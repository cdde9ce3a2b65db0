/**
 * The game manager: the tile map of placed structures with one dictionary
 * per kind of device, the materials stock, the tick counter and the fixed
 * order of a simulation tick. Placing a structure claims every tile of its
 * footprint and joins its ports to the signal network; a processor placed
 * in line with another one facing the same way is chained to it. Removing
 * a structure undoes both.
 *
 * The devices are those of namespace `Structures` (sensor, processor,
 * actuator and their ports on that namespace's network); the structure
 * kinds whose classes are not part of this model (rails, conveyors, the
 * machine base class) appear only through what the manager reads of them.
 */
module GameManagement {
  import opened Grid
  import opened Lists
  import opened Footprints
  import opened Structures
  import Trains
  import RecipeMachines
  import opened TickSchedule
  import opened MaterialStock

  datatype Option<T> = None | Some(value: T)

  /** The tick counter is an `ulong`: it wraps around at 2^64. */
  const TickModulus: nat := 0x1_0000_0000_0000_0000

  /** What a placed structure is, with the device objects the manager keeps in its dictionaries. */
  datatype Device =
    | MachineDevice(machine: RecipeMachines.RecipeMachine, actuator: Actuator)
    | DynamicRail
    | SensorRail(sensor: Sensor)
    | ActuatorRail(actuator: Actuator)
    | DynamicConveyor
    | SensorConveyor(sensor: Sensor)
    | ActuatorConveyor(actuator: Actuator)
    | SensorDevice(sensor: Sensor)
    | ProcessorDevice(processor: Processor)
    | ActuatorDevice(actuator: Actuator)
    | SplitterDevice(port: Port)
  {
    predicate IsRail()
    {
      DynamicRail? || SensorRail? || ActuatorRail?
    }

    predicate IsConveyor()
    {
      DynamicConveyor? || SensorConveyor? || ActuatorConveyor?
    }

    predicate HasSensor()
    {
      SensorRail? || SensorConveyor? || SensorDevice?
    }

    predicate HasActuator()
    {
      MachineDevice? || ActuatorRail? || ActuatorConveyor? || ActuatorDevice?
    }

    /** The device's ports, in the order its `Initialize` joins them to the network. */
    function Ports(): seq<Port>
    {
      match this
      case MachineDevice(_, a) => a.inputPorts
      case SensorRail(s) => [s.outputPort]
      case ActuatorRail(a) => a.inputPorts
      case SensorConveyor(s) => [s.outputPort]
      case ActuatorConveyor(a) => a.inputPorts
      case SensorDevice(s) => [s.outputPort]
      case ProcessorDevice(p) => p.inputPorts + [p.outputPort]
      case ActuatorDevice(a) => a.inputPorts
      case SplitterDevice(port) => [port]
      case DynamicRail => []
      case DynamicConveyor => []
    }

    function PortSet(): set<Port>
    {
      set p | p in Ports()
    }

    /** The sensor and actuator objects `Initialize` sets up. */
    function SensorSet(): set<Sensor>
    {
      if HasSensor() then {sensor} else {}
    }

    function ActuatorSet(): set<Actuator>
    {
      if HasActuator() then {actuator} else {}
    }

    function ProcessorSet(): set<Processor>
    {
      if ProcessorDevice? then {processor} else {}
    }
  }

  /**
   * A placed structure, instantiated from its prefab by `AddStructure`,
   * which fixes its tile and orientation. Its size comes from the prefab.
   * The train lists belong to the rail classes, which keep them as trains
   * enter and leave.
   */
  class Structure {
    const size: nat
    const device: Device
    const tile: Vec2
    const orientation: Vec2
    var trains: seq<Trains.Train>
    var trainOrientations: seq<Vec2>

    constructor (size: nat, device: Device, tile: Vec2, orientation: Vec2)
      ensures this.size == size && this.device == device && this.tile == tile && this.orientation == orientation
      ensures trains == [] && trainOrientations == []
    {
      this.size := size;
      this.device := device;
      this.tile := tile;
      this.orientation := orientation;
      trains := [];
      trainOrientations := [];
    }

    /** The tiles the structure covers. */
    function Footprint(): set<Vec2>
    {
      Cells(tile, orientation, size)
    }
  }

  /** A value of the tile map: the orientation the structure was placed with, and the structure. */
  datatype Placement = Placement(orientation: Vec2, structure: Structure)


  // ---------------------------------------------------------------------
  // The per-kind dictionaries as views of the tile map
  // ---------------------------------------------------------------------

  function SensorPart(s: Structure): Option<Sensor>
  {
    if s.device.HasSensor() then Some(s.device.sensor) else None
  }

  function ProcessorPart(s: Structure): Option<Processor>
  {
    if s.device.ProcessorDevice? then Some(s.device.processor) else None
  }

  function ActuatorPart(s: Structure): Option<Actuator>
  {
    if s.device.HasActuator() then Some(s.device.actuator) else None
  }

  function SplitterPart(s: Structure): Option<Port>
  {
    if s.device.SplitterDevice? then Some(s.device.port) else None
  }

  function RailPart(s: Structure): Option<Structure>
  {
    if s.device.IsRail() then Some(s) else None
  }

  function ConveyorPart(s: Structure): Option<Structure>
  {
    if s.device.IsConveyor() then Some(s) else None
  }

  function MachinePart(s: Structure): Option<RecipeMachines.RecipeMachine>
  {
    if s.device.MachineDevice? then Some(s.device.machine) else None
  }

  /** The dictionary of one kind: every tile whose structure has a `part` of that kind, mapped to it. */
  ghost function View<V>(tiles: map<Vec2, Placement>, part: Structure -> Option<V>): (r: map<Vec2, V>)
    ensures r.Keys <= tiles.Keys
  {
    map t | t in tiles && part(tiles[t].structure).Some? :: part(tiles[t].structure).value
  }

  /** Placing a structure on free tiles adds those tiles to the dictionaries of its kinds and to no other. */
  lemma ViewAdd<V>(tiles: map<Vec2, Placement>, cells: set<Vec2>, p: Placement, part: Structure -> Option<V>)
    requires cells !! tiles.Keys
    ensures part(p.structure).None? ==> View(tiles + CellMap(cells, p), part) == View(tiles, part)
    ensures part(p.structure).Some? ==>
              View(tiles + CellMap(cells, p), part) == View(tiles, part) + CellMap(cells, part(p.structure).value)
  {
  }

  /** Freeing tiles removes them from every dictionary. */
  lemma ViewRemove<V>(tiles: map<Vec2, Placement>, cells: set<Vec2>, part: Structure -> Option<V>)
    ensures View(tiles - cells, part) == View(tiles, part) - cells
  {
  }

  /** A dictionary is free wherever the tile map is. */
  lemma ViewFree<V>(tiles: map<Vec2, Placement>, part: Structure -> Option<V>, tile: Vec2, up: Vec2, size: nat)
    requires Free(tiles, tile, up, size)
    ensures Free(View(tiles, part), tile, up, size)
  {
  }

  /** The adds to one dictionary: the footprint tiles, if the structure has a part of that kind. */
  method AddPart<V>(m: map<Vec2, V>, tile: Vec2, up: Vec2, structure: Structure, part: Structure -> Option<V>,
                    ghost before: map<Vec2, Placement>, ghost after: map<Vec2, Placement>) returns (r: map<Vec2, V>)
    requires IsUnit(up) && Free(before, tile, up, structure.size) && m == View(before, part)
    requires after == before + CellMap(Cells(tile, up, structure.size), Placement(up, structure))
    ensures r == View(after, part)
  {
    FreeIsDisjoint(before, tile, up, structure.size);
    ViewAdd(before, Cells(tile, up, structure.size), Placement(up, structure), part);
    var kind := part(structure);
    if kind.Some? {
      ViewFree(before, part, tile, up, structure.size);
      r := AddCells(m, tile, up, structure.size, kind.value);
    } else {
      r := m;
    }
  }

  // ---------------------------------------------------------------------
  // Footprints and chains on the tile map
  // ---------------------------------------------------------------------

  /**
   * The tile map agrees with the structures: every tile of a structure's
   * footprint maps to it with its orientation, and only those tiles do; a
   * processor covers one tile.
   */
  ghost predicate Covers(tiles: map<Vec2, Placement>)
  {
    forall t {:trigger Covered(tiles, t)} :: t in tiles ==> Covered(tiles, t)
  }

  ghost predicate Covered(tiles: map<Vec2, Placement>, t: Vec2)
    requires t in tiles
  {
    var s := tiles[t].structure;
    && tiles[t].orientation == s.orientation && IsUnit(s.orientation)
    && (s.device.ProcessorDevice? ==> s.size == 1)
    && t in s.Footprint()
    && forall c :: c in s.Footprint() ==> c in tiles && tiles[c].structure == s
  }

  /** No port belongs to two placed structures, nor twice to one. */
  ghost predicate PortsApart(tiles: map<Vec2, Placement>)
  {
    forall t1, t2 {:trigger PortsApartAt(tiles, t1, t2)} :: t1 in tiles && t2 in tiles ==> PortsApartAt(tiles, t1, t2)
  }

  ghost predicate PortsApartAt(tiles: map<Vec2, Placement>, t1: Vec2, t2: Vec2)
    requires t1 in tiles && t2 in tiles
  {
    var s1, s2 := tiles[t1].structure, tiles[t2].structure;
    if s1 == s2 then Distinct(s1.device.Ports()) else s1.device.PortSet() !! s2.device.PortSet()
  }

  /**
   * The processor that a processor facing `o` is chained to across tile
   * `c`: one placed on `c` facing the same way, or none.
   */
  function AlignedAt(tiles: map<Vec2, Placement>, c: Vec2, o: Vec2): Processor?
  {
    if c in tiles && tiles[c].structure.device.ProcessorDevice? && tiles[c].orientation == o
    then tiles[c].structure.device.processor
    else null
  }

  /** The structures, ports, processors and machines placed on some tile. */
  ghost function StructuresOf(tiles: map<Vec2, Placement>): set<Structure>
  {
    set t | t in tiles :: tiles[t].structure
  }

  ghost function PortsOf(tiles: map<Vec2, Placement>): set<Port>
  {
    set t, p | t in tiles && p in tiles[t].structure.device.Ports() :: p
  }

  /** A port of a structure placed on `t` is a placed port, and so is a placed processor's output. */
  lemma InPortsOf(tiles: map<Vec2, Placement>, t: Vec2, q: Port)
    requires t in tiles && q in tiles[t].structure.device.Ports()
    ensures q in PortsOf(tiles)
  {
  }

  lemma OutputInPortsOf(tiles: map<Vec2, Placement>, t: Vec2)
    requires t in tiles && tiles[t].structure.device.ProcessorDevice?
    ensures tiles[t].structure.device.processor.outputPort in PortsOf(tiles)
  {
    var d := tiles[t].structure.device;
    assert d.Ports()[|d.processor.inputPorts|] == d.processor.outputPort;
    InPortsOf(tiles, t, d.processor.outputPort);
  }

  /** A structure whose ports are not placed has no placed output port. */
  lemma OutputNotPlaced(tiles: map<Vec2, Placement>, s: Structure)
    requires s.device.ProcessorDevice? && forall q :: q in s.device.Ports() ==> q !in PortsOf(tiles)
    ensures s.device.processor.outputPort !in PortsOf(tiles)
  {
    assert s.device.Ports()[|s.device.processor.inputPorts|] == s.device.processor.outputPort;
  }

  ghost function ProcessorsOf(tiles: map<Vec2, Placement>): set<Processor>
  {
    set t | t in tiles && tiles[t].structure.device.ProcessorDevice? :: tiles[t].structure.device.processor
  }

  ghost function MachinesOf(tiles: map<Vec2, Placement>): set<RecipeMachines.RecipeMachine>
  {
    set t | t in tiles && tiles[t].structure.device.MachineDevice? :: tiles[t].structure.device.machine
  }

  /** The processor a processor placed on `tile` facing `o` takes its input from: the aligned one behind it. */
  function InputAt(tiles: map<Vec2, Placement>, tile: Vec2, o: Vec2): Processor?
  {
    AlignedAt(tiles, tile.Minus(o), o)
  }

  /** The processor that takes its input from a processor placed on `tile` facing `o`: the aligned one in front. */
  function OutputAt(tiles: map<Vec2, Placement>, tile: Vec2, o: Vec2): Processor?
  {
    AlignedAt(tiles, tile.Plus(o), o)
  }

  /**
   * For a processor of size two or more, the tile in front of its origin
   * tile is one of its own tiles. `AddStructure` records the footprint in
   * the tile map before it looks for the processor in front, so it finds
   * the new processor itself there and chains it to its own output.
   */
  lemma FrontIsItself(tiles: map<Vec2, Placement>, s: Structure)
    requires s.device.ProcessorDevice? && s.size >= 2
    ensures OutputAt(tiles + CellMap(s.Footprint(), Placement(s.orientation, s)), s.tile, s.orientation) == s.device.processor
  {
    assert Cell(s.tile, s.orientation, 0, 1) == s.tile.Plus(s.orientation);
  }

  /** The processor `q`, if there is one, as a set. */
  function Present(q: Processor?): set<Processor>
  {
    if q == null then {} else {q}
  }

  /** The ports of the neighbours `b` behind and `f` in front that leave the network when the chains are made. */
  ghost function Ends(b: Processor?, f: Processor?): set<Port>
  {
    (if b != null then {b.outputPort} else {})
    + (if f != null && |f.inputPorts| > 0 then {f.inputPorts[0]} else {})
  }

  /** A processor's input ports after the first. */
  ghost function Rest(p: Processor): set<Port>
  {
    set i | 1 <= i < |p.inputPorts| :: p.inputPorts[i]
  }

  /** Placing a structure whose ports are new keeps the ports of all placed structures apart. */
  lemma PortsApartAdded(tiles: map<Vec2, Placement>, cells: set<Vec2>, pl: Placement)
    requires PortsApart(tiles) && Distinct(pl.structure.device.Ports())
    requires pl.structure !in StructuresOf(tiles)
    requires forall q :: q in pl.structure.device.Ports() ==> q !in PortsOf(tiles)
    ensures PortsApart(tiles + CellMap(cells, pl))
  {
    var tiles' := tiles + CellMap(cells, pl);
    forall t1, t2 | t1 in tiles' && t2 in tiles'
      ensures PortsApartAt(tiles', t1, t2)
    {
      if t1 in cells && t2 in cells {
      } else if t1 in cells || t2 in cells {
        var old' := if t1 in cells then t2 else t1;
        assert tiles'[old'] == tiles[old'];
        forall q | q in tiles[old'].structure.device.PortSet()
          ensures q !in pl.structure.device.PortSet()
        {
          assert q in PortsOf(tiles);
        }
      } else {
        assert PortsApartAt(tiles, t1, t2);
      }
    }
  }

  /** The new footprint is covered by the new structure, and every other structure's footprint as before. */
  lemma CoversAdded(tiles: map<Vec2, Placement>, structure: Structure)
    requires Covers(tiles) && IsUnit(structure.orientation)
    requires Free(tiles, structure.tile, structure.orientation, structure.size)
    requires structure.device.ProcessorDevice? ==> structure.size == 1
    ensures Covers(tiles + CellMap(structure.Footprint(), Placement(structure.orientation, structure)))
  {
    var tiles' := tiles + CellMap(structure.Footprint(), Placement(structure.orientation, structure));
    FreeIsDisjoint(tiles, structure.tile, structure.orientation, structure.size);
    forall t | t in tiles'
      ensures Covered(tiles', t)
    {
      if t !in tiles {
        assert tiles'[t].structure == structure;
      } else {
        assert Covered(tiles, t);
        assert tiles'[t] == tiles[t];
      }
    }
  }

  /** Tiles that do not receive a processor keep what a processor facing `o` would chain to across them. */
  lemma AlignedAdded(tiles: map<Vec2, Placement>, cells: set<Vec2>, pl: Placement, c: Vec2, o: Vec2)
    requires cells !! tiles.Keys
    requires pl.structure.device.ProcessorDevice? ==> c !in cells
    ensures AlignedAt(tiles + CellMap(cells, pl), c, o) == AlignedAt(tiles, c, o)
  {
  }

  /** A processor is placed on one tile only. */
  lemma OneTileEach(tiles: map<Vec2, Placement>, t1: Vec2, t2: Vec2)
    requires Covers(tiles) && PortsApart(tiles)
    requires t1 in tiles && t2 in tiles
    requires tiles[t1].structure.device.ProcessorDevice? && tiles[t2].structure.device.ProcessorDevice?
    requires tiles[t1].structure.device.processor == tiles[t2].structure.device.processor
    ensures t1 == t2
  {
    var s1, s2 := tiles[t1].structure, tiles[t2].structure;
    assert PortsApartAt(tiles, t1, t2);
    assert s1.device.processor.outputPort in s1.device.PortSet() * s2.device.PortSet();
    assert Covered(tiles, t1) && Covered(tiles, t2);
    SingleCell(s1.tile, s1.orientation);
  }

  /**
   * Around a tile, the processors behind and in front are two
   * different ones, and the ends of the chain links across that tile
   * belong to them alone: the one behind gives only its output port, the one in
   * front only its first input port, and no other placed device has
   * either.
   */
  lemma NeighbourPorts(tiles: map<Vec2, Placement>, tile: Vec2, o: Vec2, t: Vec2)
    requires Covers(tiles) && PortsApart(tiles) && IsUnit(o) && t in tiles
    ensures var b, f := InputAt(tiles, tile, o), OutputAt(tiles, tile, o);
            b != null && f != null ==> b != f
    ensures var d, b, f := tiles[t].structure.device, InputAt(tiles, tile, o), OutputAt(tiles, tile, o);
            && (d.ProcessorDevice? && d.processor == b ==>
                  forall i :: 0 <= i < |b.inputPorts| ==> b.inputPorts[i] !in Ends(b, f))
            && (d.ProcessorDevice? && d.processor == f ==>
                  f.outputPort !in Ends(b, f) && forall i :: 1 <= i < |f.inputPorts| ==> f.inputPorts[i] !in Ends(b, f))
            && (!(d.ProcessorDevice? && (d.processor == b || d.processor == f)) ==> d.PortSet() !! Ends(b, f))
  {
    var d, b, f := tiles[t].structure.device, InputAt(tiles, tile, o), OutputAt(tiles, tile, o);
    var tb, tf := tile.Minus(o), tile.Plus(o);
    assert PortsApartAt(tiles, t, t);
    if b != null && f != null {
      if b == f {
        OneTileEach(tiles, tb, tf);
      }
      assert PortsApartAt(tiles, tb, tf);
      assert b.outputPort in tiles[tb].structure.device.PortSet();
      if |f.inputPorts| > 0 {
        assert f.inputPorts[0] in tiles[tf].structure.device.PortSet();
      }
    }
    if d.ProcessorDevice? && d.processor == b {
      OneTileEach(tiles, t, tb);
      forall i | 0 <= i < |b.inputPorts|
        ensures b.inputPorts[i] !in Ends(b, f)
      {
        assert d.Ports()[i] == b.inputPorts[i] && d.Ports()[|b.inputPorts|] == b.outputPort;
        if f != null {
          assert b.inputPorts[i] in d.PortSet();
        }
      }
    } else if d.ProcessorDevice? && d.processor == f {
      OneTileEach(tiles, t, tf);
      forall i | 1 <= i < |f.inputPorts|
        ensures f.inputPorts[i] !in Ends(b, f)
      {
        assert d.Ports()[i] == f.inputPorts[i] && d.Ports()[0] == f.inputPorts[0];
        if b != null {
          assert f.inputPorts[i] in d.PortSet();
        }
      }
      assert d.Ports()[|f.inputPorts|] == f.outputPort;
      if |f.inputPorts| > 0 {
        assert d.Ports()[0] == f.inputPorts[0];
      }
      if b != null {
        assert f.outputPort in d.PortSet();
      }
    } else {
      if b != null {
        assert PortsApartAt(tiles, t, tb);
        assert b.outputPort in tiles[tb].structure.device.PortSet();
      }
      if f != null && |f.inputPorts| > 0 {
        assert PortsApartAt(tiles, t, tf);
        assert f.inputPorts[0] in tiles[tf].structure.device.PortSet();
      }
    }
  }

  /**
   * What a processor placed on `t` facing `o'` is chained to once a new
   * processor `pl` sits on the free `tile` facing `o`: the new one when it
   * is in line, facing the same way, and what it was chained to before
   * otherwise; and the processor in line with `tile` is the one placed on
   * `t` exactly when `t` is the neighbour facing the same way.
   */
  lemma ChainsAround(tiles: map<Vec2, Placement>, tile: Vec2, o: Vec2, pl: Placement, t: Vec2)
    requires Covers(tiles) && PortsApart(tiles) && IsUnit(o) && tile !in tiles && t in tiles
    requires pl.orientation == o && pl.structure.device.ProcessorDevice?
    requires tiles[t].structure.device.ProcessorDevice?
    ensures var q, o' := tiles[t].structure.device.processor, tiles[t].orientation;
            && (q == OutputAt(tiles, tile, o) <==> t.Minus(o') == tile && o' == o)
            && (q == InputAt(tiles, tile, o) <==> t.Plus(o') == tile && o' == o)
            && InputAt(tiles[tile := pl], t, o') == (if t.Minus(o') == tile && o' == o then pl.structure.device.processor else InputAt(tiles, t, o'))
            && OutputAt(tiles[tile := pl], t, o') == (if t.Plus(o') == tile && o' == o then pl.structure.device.processor else OutputAt(tiles, t, o'))
  {
    var q, o' := tiles[t].structure.device.processor, tiles[t].orientation;
    if q == OutputAt(tiles, tile, o) {
      OneTileEach(tiles, t, tile.Plus(o));
    }
    if q == InputAt(tiles, tile, o) {
      OneTileEach(tiles, t, tile.Minus(o));
    }
  }

  /** Every placed processor is chained exactly to the processors in line with it, behind and in front. */
  ghost predicate ChainsAligned(m: map<Vec2, Placement>)
    reads ProcessorsOf(m)`chainedInputProcessor, ProcessorsOf(m)`chainedOutputProcessor
  {
    forall t {:trigger ChainedAt(m, t)} :: t in m && m[t].structure.device.ProcessorDevice? ==> ChainedAt(m, t)
  }

  ghost predicate ChainedAt(m: map<Vec2, Placement>, t: Vec2)
    requires t in m && m[t].structure.device.ProcessorDevice?
    reads m[t].structure.device.ProcessorSet()`chainedInputProcessor
    reads m[t].structure.device.ProcessorSet()`chainedOutputProcessor
  {
    var q, o := m[t].structure.device.processor, m[t].orientation;
    && q.chainedInputProcessor == InputAt(m, t, o)
    && q.chainedOutputProcessor == OutputAt(m, t, o)
  }

  ghost predicate MachinesReady(m: map<Vec2, Placement>)
    reads MachinesOf(m)
  {
    forall t :: t in m && m[t].structure.device.MachineDevice? ==> m[t].structure.device.machine.Valid()
  }

  // ---------------------------------------------------------------------
  // Freeing a footprint
  // ---------------------------------------------------------------------

  /** How `RemoveStructure` ends: the structure is gone, a rail with trains stays, or the tile was empty. */
  datatype Removal = Removed | Refused | NoStructure

  /**
   * Freeing the footprint of the structure on `t` leaves a map that still
   * covers every other structure's footprint and holds no tile of the
   * removed one.
   */
  lemma CoversRemoved(tiles: map<Vec2, Placement>, t: Vec2)
    requires Covers(tiles) && t in tiles
    ensures var s := tiles[t].structure;
            && Covers(tiles - s.Footprint())
            && s !in StructuresOf(tiles - s.Footprint())
  {
    var s := tiles[t].structure;
    var after := tiles - s.Footprint();
    assert Covered(tiles, t);
    forall c | c in after
      ensures Covered(after, c) && after[c].structure != s
    {
      assert Covered(tiles, c);
    }
  }

  /** Freeing tiles keeps the ports of the structures left apart. */
  lemma PortsApartRemoved(tiles: map<Vec2, Placement>, cells: set<Vec2>)
    requires PortsApart(tiles)
    ensures PortsApart(tiles - cells)
  {
    forall t1, t2 | t1 in tiles - cells && t2 in tiles - cells
      ensures PortsApartAt(tiles - cells, t1, t2)
    {
      assert PortsApartAt(tiles, t1, t2);
    }
  }

  /** A freed tile offers no processor to chain to; every other tile offers what it did. */
  lemma AlignedRemoved(tiles: map<Vec2, Placement>, cells: set<Vec2>, c: Vec2, o: Vec2)
    ensures AlignedAt(tiles - cells, c, o) == if c in cells then null else AlignedAt(tiles, c, o)
  {
  }

  /**
   * Around the processor `p` on `t`, facing `o`: another processor `q` on
   * `t'`, facing `o'`, takes its input from `p` exactly when `q` is the
   * one in line in front of `p`, and feeds `p` exactly when it is the one
   * in line behind; once `t` is freed, `q` is in line with nothing there,
   * and with what it was before everywhere else.
   */
  lemma AlignedAround(tiles: map<Vec2, Placement>, t: Vec2, t': Vec2)
    requires Covers(tiles) && PortsApart(tiles) && t in tiles && t' in tiles && t' != t
    requires tiles[t].structure.device.ProcessorDevice? && tiles[t'].structure.device.ProcessorDevice?
    ensures var p, o := tiles[t].structure.device.processor, tiles[t].orientation;
            var q, o' := tiles[t'].structure.device.processor, tiles[t'].orientation;
            && (InputAt(tiles, t', o') == p <==> q == OutputAt(tiles, t, o))
            && (OutputAt(tiles, t', o') == p <==> q == InputAt(tiles, t, o))
            && InputAt(tiles - {t}, t', o') == (if InputAt(tiles, t', o') == p then null else InputAt(tiles, t', o'))
            && OutputAt(tiles - {t}, t', o') == (if OutputAt(tiles, t', o') == p then null else OutputAt(tiles, t', o'))
  {
    var p, o := tiles[t].structure.device.processor, tiles[t].orientation;
    var q, o' := tiles[t'].structure.device.processor, tiles[t'].orientation;
    if InputAt(tiles, t', o') == p {
      OneTileEach(tiles, t'.Minus(o'), t);
    }
    if OutputAt(tiles, t', o') == p {
      OneTileEach(tiles, t'.Plus(o'), t);
    }
    if q == OutputAt(tiles, t, o) {
      OneTileEach(tiles, t', t.Plus(o));
    }
    if q == InputAt(tiles, t, o) {
      OneTileEach(tiles, t', t.Minus(o));
    }
  }

  /** What dropping a machine's inventory changes: the machine and its product lists. */
  function Inventory(d: Device): set<object>
  {
    if d.MachineDevice? then {d.machine, d.machine.producedResources} else {}
  }

  /** The processors a placed processor device is chained to, behind and in front, as sets. */
  function UpstreamOf(d: Device): set<Processor>
    reads d.ProcessorSet()`chainedInputProcessor
  {
    if d.ProcessorDevice? then Present(d.processor.chainedInputProcessor) else {}
  }

  function DownstreamOf(d: Device): set<Processor>
    reads d.ProcessorSet()`chainedOutputProcessor
  {
    if d.ProcessorDevice? then Present(d.processor.chainedOutputProcessor) else {}
  }

  /** The ports a placed processor device's chain links hold on its neighbours. */
  ghost function ChainEnds(d: Device): set<Port>
    reads d.ProcessorSet()`chainedInputProcessor, d.ProcessorSet()`chainedOutputProcessor
  {
    if d.ProcessorDevice? then Ends(d.processor.chainedInputProcessor, d.processor.chainedOutputProcessor) else {}
  }

  /** The removes from one dictionary: the footprint tiles, if the structure has a part of that kind. */
  method RemovePart<V>(m: map<Vec2, V>, s: Structure, part: Structure -> Option<V>,
                       ghost before: map<Vec2, Placement>, ghost after: map<Vec2, Placement>) returns (r: map<Vec2, V>)
    requires m == View(before, part) && after == before - s.Footprint()
    requires forall c :: c in s.Footprint() && c in before ==> before[c].structure == s
    ensures r == View(after, part)
  {
    ViewRemove(before, s.Footprint(), part);
    if part(s).Some? {
      r := RemoveCells(m, s.tile, s.orientation, s.size);
    } else {
      r := m;
      assert m.Keys !! s.Footprint();
    }
  }

  /**
   * The tile map as `RemoveStructure` leaves it when asked for `tile`: it
   * frees the footprint spanned from `tile` itself with the structure's
   * orientation, which is the structure's footprint only when `tile` is
   * its origin.
   */
  function FreedAsWritten(tiles: map<Vec2, Placement>, tile: Vec2): (r: map<Vec2, Placement>)
    requires tile in tiles
    ensures r.Keys <= tiles.Keys && forall c :: c in r ==> r[c] == tiles[c]
    ensures tiles[tile].structure.size > 0 ==> tile !in r
  {
    var s := tiles[tile].structure;
    if s.size > 0 then OriginCell(tile, tiles[tile].orientation, s.size); tiles - Cells(tile, tiles[tile].orientation, s.size)
    else tiles - Cells(tile, tiles[tile].orientation, s.size)
  }

  /** Asked for a structure's origin tile, which is what every caller passes, the as-written removal frees its footprint. */
  lemma FreedAtOrigin(tiles: map<Vec2, Placement>, s: Structure)
    requires Covers(tiles) && s.tile in tiles && tiles[s.tile].structure == s
    ensures FreedAsWritten(tiles, s.tile) == tiles - s.Footprint()
  {
    assert Covered(tiles, s.tile);
  }

  /**
   * Asked for a tile other than a structure's origin, the as-written
   * removal can leave part of the footprint on the map: for any placed
   * structure of size 2 or more, asked for the tile one step right and
   * one step up of the origin, it frees that tile but keeps the origin,
   * still mapped to the structure, so the map no longer covers it.
   */
  lemma FreedAsWrittenLeavesTiles(tiles: map<Vec2, Placement>, s: Structure)
    requires Covers(tiles) && s.tile in tiles && tiles[s.tile].structure == s && s.size >= 2
    ensures var t := Cell(s.tile, s.orientation, 1, 1);
            && t in tiles && tiles[t].structure == s
            && var freed := FreedAsWritten(tiles, t);
               s.tile in freed && freed[s.tile].structure == s && !Covers(freed)
  {
    var t := Cell(s.tile, s.orientation, 1, 1);
    assert Covered(tiles, s.tile);
    assert t in s.Footprint();
    assert Covered(tiles, t);
    var freed := FreedAsWritten(tiles, t);
    ShiftedMisses(s.tile, s.orientation, s.size);
    assert s.tile in freed && t !in freed;
    assert !Covered(freed, s.tile);
  }

  /** The index of the first entry of `os` other than `o`, or none when every entry is `o`. */
  function FirstOther(os: seq<Vec2>, o: Vec2): (r: Option<nat>)
    ensures r.Some? ==> r.value < |os| && os[r.value] != o && forall j :: 0 <= j < r.value ==> os[j] == o
    ensures r.None? <==> forall j :: 0 <= j < |os| ==> os[j] == o
  {
    if |os| == 0 then None
    else if os[0] != o then Some(0)
    else match FirstOther(os[1..], o)
      case None => None
      case Some(i) => Some(i + 1)
  }

  // ---------------------------------------------------------------------
  // The game manager
  // ---------------------------------------------------------------------

  class GameManager {
    var tick: nat
    var materials: array<int>
    const signalNetworkGraph: SignalNetworkGraph
    var tiles: map<Vec2, Placement>
    var sensors: map<Vec2, Sensor>
    var processors: map<Vec2, Processor>
    var actuators: map<Vec2, Actuator>
    var splitterPorts: map<Vec2, Port>
    var rails: map<Vec2, Structure>
    var conveyors: map<Vec2, Structure>
    var machines: map<Vec2, RecipeMachines.RecipeMachine>

    /** A new game: tick 0, no materials of any of the `materialKinds` kinds, an empty map and network. */
    constructor (materialKinds: nat)
      ensures Valid() && fresh(materials) && fresh(signalNetworkGraph)
      ensures tick == 0 && materials.Length == materialKinds && forall i :: 0 <= i < materialKinds ==> materials[i] == 0
      ensures tiles == map[] && signalNetworkGraph.vertices == {} && signalNetworkGraph.wires == map[]
    {
      tick := 0;
      materials := new int[materialKinds](_ => 0);
      signalNetworkGraph := new SignalNetworkGraph();
      tiles := map[];
      sensors := map[];
      processors := map[];
      actuators := map[];
      splitterPorts := map[];
      rails := map[];
      conveyors := map[];
      machines := map[];
    }

    /** Every dictionary holds exactly the tiles whose structure is of its kind. */
    ghost predicate IndexedBy(tiles: map<Vec2, Placement>)
      reads this`sensors, this`processors, this`actuators, this`splitterPorts, this`rails, this`conveyors, this`machines
    {
      && sensors == View(tiles, SensorPart)
      && processors == View(tiles, ProcessorPart)
      && actuators == View(tiles, ActuatorPart)
      && splitterPorts == View(tiles, SplitterPart)
      && rails == View(tiles, RailPart)
      && conveyors == View(tiles, ConveyorPart)
      && machines == View(tiles, MachinePart)
    }

    ghost predicate Joined(p: Port)
      reads p`network, signalNetworkGraph`vertices
    {
      p.network == signalNetworkGraph && p in signalNetworkGraph.vertices
    }

    ghost predicate Out(p: Port)
      reads p`network, signalNetworkGraph`vertices
    {
      p.network == null && p !in signalNetworkGraph.vertices
    }

    /**
     * A placed device's ports are in the network, except the two ends of
     * a chain link, which are outside it; a processor has an input, sits
     * on this network and has a delay register.
     */
    ghost predicate DeviceAttached(d: Device)
      reads signalNetworkGraph`vertices, d.PortSet()`network
      reads d.ProcessorSet()`chainedInputProcessor, d.ProcessorSet()`chainedOutputProcessor
      reads d.ProcessorSet()`network, d.ProcessorSet()`outputQueue
    {
      if d.ProcessorDevice? then
        var q := d.processor;
        && |q.inputPorts| >= 1 && q.network == signalNetworkGraph && |q.outputQueue| >= 1
        && (forall i :: 1 <= i < |q.inputPorts| ==> Joined(q.inputPorts[i]))
        && (if q.chainedInputProcessor == null then Joined(q.inputPorts[0]) else Out(q.inputPorts[0]))
        && (if q.chainedOutputProcessor == null then Joined(q.outputPort) else Out(q.outputPort))
      else
        forall p :: p in d.Ports() ==> Joined(p)
    }

    ghost predicate Attached(m: map<Vec2, Placement>)
      reads signalNetworkGraph`vertices, PortsOf(m)`network
      reads ProcessorsOf(m)`chainedInputProcessor, ProcessorsOf(m)`chainedOutputProcessor
      reads ProcessorsOf(m)`network, ProcessorsOf(m)`outputQueue
    {
      forall t {:trigger DeviceAttached(m[t].structure.device)} :: t in m ==> DeviceAttached(m[t].structure.device)
    }

    /**
     * The network and the structures of tile map `m` agree: the network is
     * well formed, the map covers the footprints, no port is shared, every
     * placed device is attached, every processor is chained to the ones in
     * line with it and every machine is ready.
     */
    ghost predicate Sound(m: map<Vec2, Placement>)
      reads signalNetworkGraph, signalNetworkGraph.vertices, PortsOf(m), ProcessorsOf(m), MachinesOf(m)
    {
      && signalNetworkGraph.Valid()
      && Covers(m) && PortsApart(m)
      && Attached(m) && ChainsAligned(m) && MachinesReady(m)
    }

    ghost predicate Valid()
      reads this, signalNetworkGraph, signalNetworkGraph.vertices
      reads PortsOf(tiles), ProcessorsOf(tiles), MachinesOf(tiles)
    {
      && tick < TickModulus && IndexedBy(tiles) && Sound(tiles)
    }

    /**
     * A device fresh from its prefab: its ports outside any network and no
     * port of a placed structure; a processor covers one tile, has an
     * input and is not chained; a machine is ready.
     */
    ghost predicate Unplaced(size: nat, d: Device)
      reads this`tiles, d.PortSet()`network
      reads d.ProcessorSet()`chainedInputProcessor, d.ProcessorSet()`chainedOutputProcessor
      reads if d.MachineDevice? then {d.machine} else {}
    {
      && Distinct(d.Ports())
      && (forall p :: p in d.Ports() ==> p.network == null && p !in PortsOf(tiles))
      && (d.ProcessorDevice? ==>
            && size == 1 && |d.processor.inputPorts| >= 1
            && d.processor.chainedInputProcessor == null && d.processor.chainedOutputProcessor == null)
      && (d.MachineDevice? ==> d.machine.Valid())
    }

    /**
     * Places `structure`, an instance of a prefab made on its tile facing
     * its orientation. Nothing happens, and the result is false, when the
     * tile or any other tile of the footprint is taken. Otherwise every
     * footprint tile maps to the structure, its device joins the
     * dictionaries of its kinds and its ports join the network, and a
     * processor is chained to the processors in line with it facing the
     * same way.
     */
    method AddStructure(structure: Structure) returns (added: bool)
      requires Valid() && IsUnit(structure.orientation)
      requires structure !in StructuresOf(tiles) && Unplaced(structure.size, structure.device)
      modifies this`tiles, this`sensors, this`processors, this`actuators, this`splitterPorts, this`rails, this`conveyors, this`machines
      modifies structure.device.SensorSet(), structure.device.ActuatorSet(), structure.device.PortSet()
      modifies structure.device.ProcessorSet()`network, structure.device.ProcessorSet()`outputQueue
      modifies structure.device.ProcessorSet()`chainedInputProcessor, structure.device.ProcessorSet()`chainedOutputProcessor
      modifies signalNetworkGraph, signalNetworkGraph.vertices`signalChannel
      modifies Present(InputAt(tiles, structure.tile, structure.orientation))`chainedOutputProcessor
      modifies Present(OutputAt(tiles, structure.tile, structure.orientation))`chainedInputProcessor
      modifies Ends(InputAt(tiles, structure.tile, structure.orientation), OutputAt(tiles, structure.tile, structure.orientation))
      ensures Valid()
      ensures added <==> structure.tile !in old(tiles) && Free(old(tiles), structure.tile, structure.orientation, structure.size)
      ensures !added ==> tiles == old(tiles) && unchanged(signalNetworkGraph)
      ensures added ==> tiles == old(tiles) + CellMap(structure.Footprint(), Placement(structure.orientation, structure))
      ensures added && structure.device.ProcessorDevice? ==>
                && structure.device.processor.chainedInputProcessor == InputAt(old(tiles), structure.tile, structure.orientation)
                && structure.device.processor.chainedOutputProcessor == OutputAt(old(tiles), structure.tile, structure.orientation)
    {
      if structure.tile in tiles {
        return false;
      }
      for x := 0 to structure.size
        invariant forall x', y' :: 0 <= x' < x && 0 <= y' < structure.size ==> Cell(structure.tile, structure.orientation, x', y') !in tiles
      {
        for y := 0 to structure.size
          invariant forall x', y' :: 0 <= x' < x && 0 <= y' < structure.size ==> Cell(structure.tile, structure.orientation, x', y') !in tiles
          invariant forall y' :: 0 <= y' < y ==> Cell(structure.tile, structure.orientation, x, y') !in tiles
        {
          if Cell(structure.tile, structure.orientation, x, y) in tiles {
            return false;
          }
        }
      }
      if structure.device.ProcessorDevice? {
        PlaceProcessor(structure);
      } else {
        PlaceDevice(structure);
      }
      added := true;
    }

    /** `AddStructure` for every kind of structure but a processor, once the footprint is known to be free. */
    method PlaceDevice(structure: Structure)
      requires Valid() && IsUnit(structure.orientation) && !structure.device.ProcessorDevice?
      requires Free(tiles, structure.tile, structure.orientation, structure.size)
      requires structure !in StructuresOf(tiles) && Unplaced(structure.size, structure.device)
      modifies this`tiles, this`sensors, this`processors, this`actuators, this`splitterPorts, this`rails, this`conveyors, this`machines
      modifies structure.device.SensorSet(), structure.device.ActuatorSet(), structure.device.PortSet(), signalNetworkGraph
      ensures Valid()
      ensures tiles == old(tiles) + CellMap(structure.Footprint(), Placement(structure.orientation, structure))
    {
      Join(structure.device);
      Record(structure);
      DevicePlaced(structure);
    }

    /** The network joins of `PlaceDevice`: the device's `Initialize`, or the port's own join for a splitter. */
    method Join(d: Device)
      requires !d.ProcessorDevice?
      requires signalNetworkGraph.Valid() && Distinct(d.Ports()) && forall p :: p in d.Ports() ==> p.network == null
      modifies d.SensorSet(), d.ActuatorSet(), d.PortSet(), signalNetworkGraph
      ensures signalNetworkGraph.Valid()
      ensures signalNetworkGraph.vertices == old(signalNetworkGraph.vertices) + d.PortSet()
      ensures DeviceAttached(d)
    {
      match d
      case MachineDevice(_, actuator) =>
        actuator.Initialize(signalNetworkGraph);
      case DynamicRail =>
      case SensorRail(sensor) =>
        sensor.Initialize(signalNetworkGraph);
      case ActuatorRail(actuator) =>
        actuator.Initialize(signalNetworkGraph);
      case DynamicConveyor =>
      case SensorConveyor(sensor) =>
        sensor.Initialize(signalNetworkGraph);
      case ActuatorConveyor(actuator) =>
        actuator.Initialize(signalNetworkGraph);
      case SensorDevice(sensor) =>
        sensor.Initialize(signalNetworkGraph);
      case ActuatorDevice(actuator) =>
        actuator.Initialize(signalNetworkGraph);
      case SplitterDevice(port) =>
        var _ := port.AddToNetwork(signalNetworkGraph);
    }

    /** `AddStructure` for a processor on a free tile. */
    method PlaceProcessor(structure: Structure)
      requires Valid() && IsUnit(structure.orientation) && structure.device.ProcessorDevice?
      requires structure.tile !in tiles
      requires structure !in StructuresOf(tiles) && Unplaced(structure.size, structure.device)
      modifies this`tiles, this`sensors, this`processors, this`actuators, this`splitterPorts, this`rails, this`conveyors, this`machines
      modifies structure.device.PortSet()
      modifies structure.device.processor`network, structure.device.processor`outputQueue
      modifies structure.device.processor`chainedInputProcessor, structure.device.processor`chainedOutputProcessor
      modifies signalNetworkGraph, signalNetworkGraph.vertices`signalChannel
      modifies Present(InputAt(tiles, structure.tile, structure.orientation))`chainedOutputProcessor
      modifies Present(OutputAt(tiles, structure.tile, structure.orientation))`chainedInputProcessor
      modifies Ends(InputAt(tiles, structure.tile, structure.orientation), OutputAt(tiles, structure.tile, structure.orientation))
      ensures Valid()
      ensures tiles == old(tiles) + CellMap(structure.Footprint(), Placement(structure.orientation, structure))
      ensures structure.device.processor.chainedInputProcessor == InputAt(old(tiles), structure.tile, structure.orientation)
      ensures structure.device.processor.chainedOutputProcessor == OutputAt(old(tiles), structure.tile, structure.orientation)
    {
      var p, tile, o := structure.device.processor, structure.tile, structure.orientation;
      var input, output := InputAt(tiles, tile, o), OutputAt(tiles, tile, o);
      LinkableAt(tile, o, p);
      FreeSingle(tiles, tile, o);
      ConnectProcessor(p, input, output);
      ProcessorPlaced(structure);
      RecordSound(structure);
    }

    /** `Record` once the network agrees with the map that has the structure on it: the manager is then valid. */
    method RecordSound(structure: Structure)
      requires tick < TickModulus && IsUnit(structure.orientation)
      requires Free(tiles, structure.tile, structure.orientation, structure.size) && IndexedBy(tiles)
      requires Sound(tiles + CellMap(structure.Footprint(), Placement(structure.orientation, structure)))
      modifies this`tiles, this`sensors, this`processors, this`actuators, this`splitterPorts, this`rails, this`conveyors, this`machines
      ensures Valid()
      ensures tiles == old(tiles) + CellMap(structure.Footprint(), Placement(structure.orientation, structure))
    {
      Record(structure);
      SoundKept(tiles);
    }

    /**
     * The neighbours a processor `p` is chained to: the processor `b`
     * behind has no output link and its output port is in the network,
     * the processor `f` in front has no input link and its first input
     * port is in the network, and they are two different processors whose
     * ports are not `p`'s.
     */
    ghost predicate Linkable(p: Processor, b: Processor?, f: Processor?)
      reads signalNetworkGraph`vertices, Ends(b, f)`network, Present(b)`chainedOutputProcessor, Present(f)`chainedInputProcessor
    {
      && (b != null ==>
            && b != p && b.chainedOutputProcessor == null && Joined(b.outputPort)
            && b.outputPort !in p.inputPorts + [p.outputPort])
      && (f != null ==>
            && f != p && |f.inputPorts| >= 1 && f.chainedInputProcessor == null && Joined(f.inputPorts[0])
            && f.inputPorts[0] !in p.inputPorts + [p.outputPort])
      && (b != null && f != null ==> b != f && b.outputPort != f.inputPorts[0])
    }

    /** On a valid map every free tile offers linkable neighbours to a processor with new ports. */
    lemma LinkableAt(tile: Vec2, o: Vec2, p: Processor)
      requires Valid() && IsUnit(o) && tile !in tiles
      requires forall q :: q in p.inputPorts + [p.outputPort] ==> q !in PortsOf(tiles)
      ensures Linkable(p, InputAt(tiles, tile, o), OutputAt(tiles, tile, o))
    {
      var b, f := InputAt(tiles, tile, o), OutputAt(tiles, tile, o);
      var tb, tf := tile.Minus(o), tile.Plus(o);
      if b != null {
        assert b.outputPort in tiles[tb].structure.device.Ports();
        assert b.outputPort in PortsOf(tiles);
        assert DeviceAttached(tiles[tb].structure.device);
        assert ChainedAt(tiles, tb);
        assert tb.Plus(o) == tile;
      }
      if f != null {
        assert ChainedAt(tiles, tf);
        assert tf.Minus(o) == tile;
        assert DeviceAttached(tiles[tf].structure.device);
        assert f.inputPorts[0] in tiles[tf].structure.device.Ports();
        assert f.inputPorts[0] in PortsOf(tiles);
      }
      if b != null && f != null {
        if b == f {
          OneTileEach(tiles, tb, tf);
        }
        assert PortsApartAt(tiles, tb, tf);
        assert b.outputPort in tiles[tb].structure.device.PortSet();
        assert f.inputPorts[0] in tiles[tf].structure.device.PortSet();
      }
    }

    /**
     * `Initialize` with the default delay of one tick, then the two chain
     * links: the input from the aligned processor `b` behind, the output
     * to the aligned processor `f` in front, where there are such.
     */
    method ConnectProcessor(p: Processor, b: Processor?, f: Processor?)
      requires signalNetworkGraph.Valid() && Linkable(p, b, f)
      requires |p.inputPorts| >= 1 && Distinct(p.inputPorts + [p.outputPort])
      requires forall q :: q in p.inputPorts + [p.outputPort] ==> q.network == null
      requires p.chainedInputProcessor == null && p.chainedOutputProcessor == null
      modifies p`network, p`outputQueue, p`chainedInputProcessor, p`chainedOutputProcessor, p.PortSet()
      modifies signalNetworkGraph, signalNetworkGraph.vertices`signalChannel
      modifies Present(b)`chainedOutputProcessor, Present(f)`chainedInputProcessor, Ends(b, f)
      ensures signalNetworkGraph.Valid() && p.outputQueue == Zeros(1) && Linked(p, b, f)
      ensures forall q: Port :: q !in p.PortSet() + Ends(b, f) && old(allocated(q)) ==>
                q.network == old(q.network) && (q in signalNetworkGraph.vertices <==> q in old(signalNetworkGraph.vertices))
      ensures forall q: Processor :: old(allocated(q)) && q != p ==>
                && q.network == old(q.network) && q.outputQueue == old(q.outputQueue)
                && (q != b ==> q.chainedOutputProcessor == old(q.chainedOutputProcessor))
                && (q != f ==> q.chainedInputProcessor == old(q.chainedInputProcessor))
      ensures forall m: RecipeMachines.RecipeMachine :: old(allocated(m)) && old(m.Valid()) ==> m.Valid()
    {
      ghost var all := p.inputPorts + [p.outputPort];
      assert all[0] == p.inputPorts[0] && all[|p.inputPorts|] == p.outputPort;
      assert forall i :: 0 <= i < |p.inputPorts| ==> p.inputPorts[i] == all[i];
      p.Initialize(signalNetworkGraph, 1);
      LinkNeighbours(p, b, f);
    }

    /** The two chain lookups of `ConnectProcessor`, once `p` and all its ports are in the network. */
    method LinkNeighbours(p: Processor, b: Processor?, f: Processor?)
      requires signalNetworkGraph.Valid() && Linkable(p, b, f)
      requires |p.inputPorts| >= 1 && Distinct(p.inputPorts + [p.outputPort])
      requires p.network == signalNetworkGraph && |p.outputQueue| >= 1
      requires Joined(p.inputPorts[0]) && Joined(p.outputPort) && forall i :: 1 <= i < |p.inputPorts| ==> Joined(p.inputPorts[i])
      requires p.chainedInputProcessor == null && p.chainedOutputProcessor == null
      modifies p`chainedInputProcessor, p`chainedOutputProcessor, p.inputPorts[0], p.outputPort
      modifies signalNetworkGraph, signalNetworkGraph.vertices`signalChannel
      modifies Present(b)`chainedOutputProcessor, Present(f)`chainedInputProcessor, Ends(b, f)
      ensures signalNetworkGraph.Valid() && Linked(p, b, f)
      ensures forall q: Port :: q !in p.PortSet() + Ends(b, f) && old(allocated(q)) ==>
                q.network == old(q.network) && (q in signalNetworkGraph.vertices <==> q in old(signalNetworkGraph.vertices))
      ensures forall q: Processor :: old(allocated(q)) && q != p ==>
                && q.network == old(q.network) && q.outputQueue == old(q.outputQueue)
                && (q != b ==> q.chainedOutputProcessor == old(q.chainedOutputProcessor))
                && (q != f ==> q.chainedInputProcessor == old(q.chainedInputProcessor))
      ensures forall m: RecipeMachines.RecipeMachine :: old(allocated(m)) && old(m.Valid()) ==> m.Valid()
    {
      ghost var all := p.inputPorts + [p.outputPort];
      assert all[0] == p.inputPorts[0] && all[|p.inputPorts|] == p.outputPort;
      forall i | 0 <= i < |p.inputPorts|
        ensures p.inputPorts[i] == all[i]
      {
      }
      ChainInput(p, b, f);
      ChainOutput(p, f, b);
    }

    /** The input lookup's link: `p` takes its input straight from `b`, when there is a `b`. */
    method ChainInput(p: Processor, b: Processor?, ghost f: Processor?)
      requires signalNetworkGraph.Valid() && |p.inputPorts| >= 1 && p.chainedInputProcessor == null
      requires b != null ==>
                 && b != p && b.outputPort !in p.inputPorts + [p.outputPort]
                 && Joined(b.outputPort) && Joined(p.inputPorts[0])
      modifies p`chainedInputProcessor, Present(b)`chainedOutputProcessor, if b != null then {p.inputPorts[0], b.outputPort} else {}
      modifies signalNetworkGraph, signalNetworkGraph.vertices`signalChannel
      ensures signalNetworkGraph.Valid() && p.chainedInputProcessor == b
      ensures b != null ==> b.chainedOutputProcessor == p && Out(b.outputPort) && Out(p.inputPorts[0])
      ensures signalNetworkGraph.vertices == old(signalNetworkGraph.vertices) - (if b != null then {p.inputPorts[0], b.outputPort} else {})
      ensures p.network == old(p.network) && p.outputQueue == old(p.outputQueue) && p.chainedOutputProcessor == old(p.chainedOutputProcessor)
      ensures forall q :: q in p.inputPorts + [p.outputPort] && (b == null || q != p.inputPorts[0]) ==> q.network == old(q.network)
      ensures forall q: Port :: q !in p.PortSet() + Ends(b, f) && old(allocated(q)) ==>
                q.network == old(q.network) && (q in signalNetworkGraph.vertices <==> q in old(signalNetworkGraph.vertices))
      ensures forall q: Processor :: old(allocated(q)) && q != p ==>
                && q.network == old(q.network) && q.outputQueue == old(q.outputQueue)
                && (q != b ==> q.chainedOutputProcessor == old(q.chainedOutputProcessor))
                && q.chainedInputProcessor == old(q.chainedInputProcessor)
      ensures forall m: RecipeMachines.RecipeMachine :: old(allocated(m)) && old(m.Valid()) ==> m.Valid()
    {
      if b != null {
        var _ := p.Chain(b, signalNetworkGraph);
      }
    }

    /** The output lookup's link: `f` takes its input straight from `p`, when there is an `f`. */
    method ChainOutput(p: Processor, f: Processor?, ghost b: Processor?)
      requires signalNetworkGraph.Valid()
      requires f != null ==>
                 && f != p && |f.inputPorts| >= 1 && f.chainedInputProcessor == null && f.inputPorts[0] !in p.inputPorts + [p.outputPort]
                 && Joined(f.inputPorts[0]) && Joined(p.outputPort)
      modifies p`chainedOutputProcessor, Present(f)`chainedInputProcessor, if f != null then {f.inputPorts[0], p.outputPort} else {}
      modifies signalNetworkGraph, signalNetworkGraph.vertices`signalChannel
      ensures signalNetworkGraph.Valid()
      ensures f != null ==> p.chainedOutputProcessor == f && f.chainedInputProcessor == p && Out(f.inputPorts[0]) && Out(p.outputPort)
      ensures f == null ==> p.chainedOutputProcessor == old(p.chainedOutputProcessor)
      ensures signalNetworkGraph.vertices == old(signalNetworkGraph.vertices) - (if f != null then {f.inputPorts[0], p.outputPort} else {})
      ensures p.network == old(p.network) && p.outputQueue == old(p.outputQueue) && p.chainedInputProcessor == old(p.chainedInputProcessor)
      ensures forall q :: q in p.inputPorts + [p.outputPort] && (f == null || q != p.outputPort) ==> q.network == old(q.network)
      ensures forall q: Port :: q !in p.PortSet() + Ends(b, f) && old(allocated(q)) ==>
                q.network == old(q.network) && (q in signalNetworkGraph.vertices <==> q in old(signalNetworkGraph.vertices))
      ensures forall q: Processor :: old(allocated(q)) && q != p ==>
                && q.network == old(q.network) && q.outputQueue == old(q.outputQueue)
                && q.chainedOutputProcessor == old(q.chainedOutputProcessor)
                && (q != f ==> q.chainedInputProcessor == old(q.chainedInputProcessor))
      ensures forall m: RecipeMachines.RecipeMachine :: old(allocated(m)) && old(m.Valid()) ==> m.Valid()
    {
      if f != null {
        var _ := f.Chain(p, signalNetworkGraph);
      }
    }

    /**
     * The map adds of `AddStructure`: every footprint tile maps to the
     * structure and its orientation, and each dictionary whose kind the
     * structure has gains the footprint tiles, mapped to the structure's
     * part of that kind (a machine goes to the machines and the actuators,
     * a sensor rail to the rails and the sensors, and so on).
     */
    method Record(structure: Structure)
      requires IsUnit(structure.orientation) && Free(tiles, structure.tile, structure.orientation, structure.size) && IndexedBy(tiles)
      modifies this`tiles, this`sensors, this`processors, this`actuators, this`splitterPorts, this`rails, this`conveyors, this`machines
      ensures tiles == old(tiles) + CellMap(structure.Footprint(), Placement(structure.orientation, structure))
      ensures IndexedBy(tiles)
    {
      var tile, o, before := structure.tile, structure.orientation, tiles;
      tiles := AddCells(tiles, tile, o, structure.size, Placement(o, structure));
      machines := AddPart(machines, tile, o, structure, MachinePart, before, tiles);
      rails := AddPart(rails, tile, o, structure, RailPart, before, tiles);
      conveyors := AddPart(conveyors, tile, o, structure, ConveyorPart, before, tiles);
      sensors := AddPart(sensors, tile, o, structure, SensorPart, before, tiles);
      processors := AddPart(processors, tile, o, structure, ProcessorPart, before, tiles);
      actuators := AddPart(actuators, tile, o, structure, ActuatorPart, before, tiles);
      splitterPorts := AddPart(splitterPorts, tile, o, structure, SplitterPart, before, tiles);
    }

    /** After `PlaceDevice`'s steps the manager is valid again. */
    twostate lemma DevicePlaced(s: Structure)
      requires old(Valid()) && tick == old(tick)
      requires IsUnit(s.orientation) && !s.device.ProcessorDevice? && Free(old(tiles), s.tile, s.orientation, s.size)
      requires s !in StructuresOf(old(tiles)) && Distinct(s.device.Ports())
      requires forall q :: q in s.device.Ports() ==> q !in PortsOf(old(tiles))
      requires tiles == old(tiles) + CellMap(s.Footprint(), Placement(s.orientation, s)) && IndexedBy(tiles)
      requires signalNetworkGraph.Valid() && DeviceAttached(s.device)
      requires signalNetworkGraph.vertices == old(signalNetworkGraph.vertices) + s.device.PortSet()
      requires forall q: Port :: old(allocated(q)) && q !in s.device.PortSet() ==>
                 q.network == old(q.network) && (q in signalNetworkGraph.vertices <==> q in old(signalNetworkGraph.vertices))
      requires forall q: Processor :: old(allocated(q)) && q !in {} ==>
                 && q.chainedInputProcessor == old(q.chainedInputProcessor) && q.chainedOutputProcessor == old(q.chainedOutputProcessor)
                 && q.network == old(q.network) && q.outputQueue == old(q.outputQueue)
      requires forall m: RecipeMachines.RecipeMachine :: old(allocated(m)) && old(m.Valid()) ==> m.Valid()
      requires s.device.MachineDevice? ==> s.device.machine.Valid()
      ensures Valid()
    {
      var before := old(tiles);
      var cells, pl := s.Footprint(), Placement(s.orientation, s);
      var added, none: set<Processor> := s.device.PortSet(), {};
      FreeIsDisjoint(before, s.tile, s.orientation, s.size);
      CoversAdded(before, s);
      PortsApartAdded(before, cells, pl);
      forall t | t in tiles
        ensures DeviceAttached(tiles[t].structure.device)
      {
        if t in before {
          var d := before[t].structure.device;
          assert old(DeviceAttached(d));
          forall q | q in d.Ports()
            ensures q !in s.device.PortSet()
          {
            assert q in PortsOf(before);
          }
          KeptAttached(d, added, none);
        }
      }
      forall t | t in tiles && tiles[t].structure.device.ProcessorDevice?
        ensures ChainedAt(tiles, t)
      {
        var o := tiles[t].orientation;
        assert t in before && old(ChainedAt(before, t));
        assert tiles[t].structure.device.processor in ProcessorsOf(before);
        AlignedAdded(before, cells, pl, t.Minus(o), o);
        AlignedAdded(before, cells, pl, t.Plus(o), o);
      }
      MachinesAfter(s, tiles);
    }

    /** A tile map stays sound while the network, the ports, the processors and the machines stay unchanged. */
    twostate lemma SoundKept(new m: map<Vec2, Placement>)
      requires old(allocated(m)) && old(Sound(m))
      requires unchanged(signalNetworkGraph) && unchanged(old(signalNetworkGraph.vertices))
      requires forall q: Port :: old(allocated(q)) ==> q.network == old(q.network)
      requires forall q: Processor :: old(allocated(q)) ==>
                 && q.chainedInputProcessor == old(q.chainedInputProcessor) && q.chainedOutputProcessor == old(q.chainedOutputProcessor)
                 && q.network == old(q.network) && q.outputQueue == old(q.outputQueue)
      requires forall q: RecipeMachines.RecipeMachine :: old(allocated(q)) && old(q.Valid()) ==> q.Valid()
      ensures Sound(m)
    {
      var none, nobody: set<Processor> := {}, {};
      forall t | t in m
        ensures DeviceAttached(m[t].structure.device)
      {
        assert old(DeviceAttached(m[t].structure.device));
        KeptAttached(m[t].structure.device, none, nobody);
      }
      forall t | t in m && m[t].structure.device.ProcessorDevice?
        ensures ChainedAt(m, t)
      {
        assert old(ChainedAt(m, t));
      }
      forall t | t in m && m[t].structure.device.MachineDevice?
        ensures m[t].structure.device.machine.Valid()
      {
        assert old(m[t].structure.device.machine.Valid());
      }
    }

    /** Every placed machine stays ready once `s` is placed, a machine itself ready. */
    twostate lemma MachinesAfter(new s: Structure, new after: map<Vec2, Placement>)
      requires old(MachinesReady(tiles))
      requires after == old(tiles) + CellMap(s.Footprint(), Placement(s.orientation, s))
      requires s.device.MachineDevice? ==> s.device.machine.Valid()
      requires forall m: RecipeMachines.RecipeMachine :: old(allocated(m)) && old(m.Valid()) ==> m.Valid()
      ensures MachinesReady(after)
    {
      forall t | t in after && after[t].structure.device.MachineDevice?
        ensures after[t].structure.device.machine.Valid()
      {
        if t in old(tiles) {
          assert old(tiles)[t] == after[t] || t in s.Footprint();
        }
      }
    }

    /**
     * A device stays attached when none of its ports is among `ports` and
     * none of its processors among `procs`, and every port and processor
     * outside those keeps its network, its membership and its chains.
     */
    twostate lemma KeptAttached(d: Device, new ports: set<Port>, new procs: set<Processor>)
      requires old(allocated(d)) && old(DeviceAttached(d))
      requires d.PortSet() !! ports && d.ProcessorSet() !! procs
      requires forall q: Port :: q !in ports && old(allocated(q)) ==>
                 q.network == old(q.network) && (q in signalNetworkGraph.vertices <==> q in old(signalNetworkGraph.vertices))
      requires forall q: Processor :: q !in procs && old(allocated(q)) ==>
                 && q.chainedInputProcessor == old(q.chainedInputProcessor) && q.chainedOutputProcessor == old(q.chainedOutputProcessor)
                 && q.network == old(q.network) && q.outputQueue == old(q.outputQueue)
      ensures DeviceAttached(d)
    {
      assert forall q :: q in d.Ports() ==> old(allocated(q)) && q in d.PortSet();
    }

    /**
     * Processor `p` just chained to `b` behind and `f` in front: it sits on
     * the network with a delay register, its chain fields and theirs point
     * at each other, the ports of the links are out of the network and its
     * other ports are in it.
     */
    ghost predicate Linked(p: Processor, b: Processor?, f: Processor?)
      reads p, Present(b)`chainedOutputProcessor, Present(f)`chainedInputProcessor, signalNetworkGraph`vertices
      reads Ends(b, f)`network, p.inputPorts, p.outputPort
    {
      && p.network == signalNetworkGraph && |p.outputQueue| >= 1 && |p.inputPorts| >= 1
      && p.chainedInputProcessor == b && p.chainedOutputProcessor == f
      && (b != null ==> b.chainedOutputProcessor == p && Out(b.outputPort) && Out(p.inputPorts[0]))
      && (f != null ==> f.chainedInputProcessor == p && |f.inputPorts| >= 1 && Out(f.inputPorts[0]) && Out(p.outputPort))
      && (b == null ==> Joined(p.inputPorts[0]))
      && (f == null ==> Joined(p.outputPort))
      && (forall i :: 1 <= i < |p.inputPorts| ==> Joined(p.inputPorts[i]))
    }

    /** A processor linked to its neighbours is attached. */
    lemma LinkedAttached(d: Device, b: Processor?, f: Processor?)
      requires d.ProcessorDevice? && Linked(d.processor, b, f)
      ensures DeviceAttached(d)
    {
    }

    /**
     * A placed device stays attached when every port outside `ports` keeps
     * its network and its membership, none of its own ports is among
     * `ports` unless it is the end of a new chain link, and a processor
     * keeps its network, its register and every chain field whose end did
     * not change.
     */
    twostate lemma Reattached(d: Device, new ports: set<Port>)
      requires old(allocated(d)) && old(DeviceAttached(d))
      requires forall q: Port :: q !in ports && old(allocated(q)) ==>
                 q.network == old(q.network) && (q in signalNetworkGraph.vertices <==> q in old(signalNetworkGraph.vertices))
      requires !d.ProcessorDevice? ==> d.PortSet() !! ports
      requires d.ProcessorDevice? ==>
                 var q := d.processor;
                 && q.network == old(q.network) && q.outputQueue == old(q.outputQueue)
                 && (forall i :: 1 <= i < |q.inputPorts| ==> q.inputPorts[i] !in ports)
                 && (q.inputPorts[0] in ports ==>
                       if q.chainedInputProcessor == null then Joined(q.inputPorts[0]) else Out(q.inputPorts[0]))
                 && (q.inputPorts[0] !in ports ==> q.chainedInputProcessor == old(q.chainedInputProcessor))
                 && (q.outputPort in ports ==>
                       if q.chainedOutputProcessor == null then Joined(q.outputPort) else Out(q.outputPort))
                 && (q.outputPort !in ports ==> q.chainedOutputProcessor == old(q.chainedOutputProcessor))
      ensures DeviceAttached(d)
    {
      assert forall q :: q in d.Ports() ==> old(allocated(q)) && q in d.PortSet();
      if d.ProcessorDevice? {
        var q := d.processor;
        assert forall i :: 0 <= i < |q.inputPorts| ==> q.inputPorts[i] == d.Ports()[i];
        assert q.outputPort == d.Ports()[|q.inputPorts|];
      }
    }

    /** A device placed before stays attached once the new processor `s` is linked to its neighbours. */
    twostate lemma AttachedAfter(new s: Structure, new after: map<Vec2, Placement>, new t: Vec2)
      requires old(Covers(tiles)) && old(PortsApart(tiles))
      requires IsUnit(s.orientation) && s.device.ProcessorDevice? && s.tile !in old(tiles)
      requires after == old(tiles)[s.tile := Placement(s.orientation, s)] && t in after && old(Attached(tiles))
      requires forall q :: q in s.device.Ports() ==> q !in PortsOf(old(tiles))
      requires Linked(s.device.processor, InputAt(old(tiles), s.tile, s.orientation), OutputAt(old(tiles), s.tile, s.orientation))
      requires forall q: Port :: q !in s.device.processor.PortSet() + Ends(InputAt(old(tiles), s.tile, s.orientation), OutputAt(old(tiles), s.tile, s.orientation)) && old(allocated(q)) ==>
                 q.network == old(q.network) && (q in signalNetworkGraph.vertices <==> q in old(signalNetworkGraph.vertices))
      requires forall q: Processor :: old(allocated(q)) && q != s.device.processor ==>
                 && q.network == old(q.network) && q.outputQueue == old(q.outputQueue)
                 && (q != InputAt(old(tiles), s.tile, s.orientation) ==> q.chainedOutputProcessor == old(q.chainedOutputProcessor))
                 && (q != OutputAt(old(tiles), s.tile, s.orientation) ==> q.chainedInputProcessor == old(q.chainedInputProcessor))
      ensures DeviceAttached(after[t].structure.device)
    {
      var tile, o := s.tile, s.orientation;
      if t == tile {
        LinkedAttached(s.device, InputAt(old(tiles), tile, o), OutputAt(old(tiles), tile, o));
        return;
      }
      var d, b, f := old(tiles)[t].structure.device, InputAt(old(tiles), tile, o), OutputAt(old(tiles), tile, o);
      assert old(DeviceAttached(d));
      NeighbourPorts(old(tiles), tile, o, t);
      forall q | q in d.Ports()
        ensures q !in s.device.processor.PortSet()
      {
        InPortsOf(old(tiles), t, q);
      }
      if d.ProcessorDevice? {
        OutputInPortsOf(old(tiles), t);
      }
      var changed := s.device.processor.PortSet() + Ends(b, f);
      Reattached(d, changed);
    }

    /** A processor placed before keeps its chains, except the ends the new processor `s` linked to. */
    twostate lemma ChainedAfter(new s: Structure, new after: map<Vec2, Placement>, new t: Vec2)
      requires old(Covers(tiles)) && old(PortsApart(tiles))
      requires IsUnit(s.orientation) && s.device.ProcessorDevice? && s.tile !in old(tiles)
      requires after == old(tiles)[s.tile := Placement(s.orientation, s)]
      requires t in after && after[t].structure.device.ProcessorDevice? && old(ChainsAligned(tiles))
      requires s.device.processor.outputPort !in PortsOf(old(tiles))
      requires var p, b, f := s.device.processor, InputAt(old(tiles), s.tile, s.orientation), OutputAt(old(tiles), s.tile, s.orientation);
               && p.chainedInputProcessor == b && p.chainedOutputProcessor == f
               && (b != null ==> b.chainedOutputProcessor == p)
               && (f != null ==> f.chainedInputProcessor == p)
      requires forall q: Processor :: old(allocated(q)) && q != s.device.processor ==>
                 && q.network == old(q.network) && q.outputQueue == old(q.outputQueue)
                 && (q != InputAt(old(tiles), s.tile, s.orientation) ==> q.chainedOutputProcessor == old(q.chainedOutputProcessor))
                 && (q != OutputAt(old(tiles), s.tile, s.orientation) ==> q.chainedInputProcessor == old(q.chainedInputProcessor))
      ensures ChainedAt(after, t)
    {
      if t == s.tile {
        assert s.tile.Minus(s.orientation) != s.tile && s.tile.Plus(s.orientation) != s.tile;
        return;
      }
      assert old(ChainedAt(tiles, t));
      OutputInPortsOf(old(tiles), t);
      ChainsAround(old(tiles), s.tile, s.orientation, Placement(s.orientation, s), t);
    }

    /**
     * After `ConnectProcessor`, the network and the structures agree again
     * once the new processor `s` is on the map: the map adds that follow
     * only have to record it.
     */
    twostate lemma ProcessorPlaced(s: Structure)
      requires old(Valid())
      requires IsUnit(s.orientation) && s.device.ProcessorDevice? && s.size == 1 && s.tile !in old(tiles)
      requires s !in StructuresOf(old(tiles)) && Distinct(s.device.Ports())
      requires forall q :: q in s.device.Ports() ==> q !in PortsOf(old(tiles))
      requires signalNetworkGraph.Valid()
      requires Linked(s.device.processor, InputAt(old(tiles), s.tile, s.orientation), OutputAt(old(tiles), s.tile, s.orientation))
      requires forall q: Port :: q !in s.device.processor.PortSet() + Ends(InputAt(old(tiles), s.tile, s.orientation), OutputAt(old(tiles), s.tile, s.orientation)) && old(allocated(q)) ==>
                 q.network == old(q.network) && (q in signalNetworkGraph.vertices <==> q in old(signalNetworkGraph.vertices))
      requires forall q: Processor :: old(allocated(q)) && q != s.device.processor ==>
                 && q.network == old(q.network) && q.outputQueue == old(q.outputQueue)
                 && (q != InputAt(old(tiles), s.tile, s.orientation) ==> q.chainedOutputProcessor == old(q.chainedOutputProcessor))
                 && (q != OutputAt(old(tiles), s.tile, s.orientation) ==> q.chainedInputProcessor == old(q.chainedInputProcessor))
      requires forall m: RecipeMachines.RecipeMachine :: old(allocated(m)) && old(m.Valid()) ==> m.Valid()
      ensures Sound(old(tiles) + CellMap(s.Footprint(), Placement(s.orientation, s)))
    {
      var before := old(tiles);
      var tile, o, pl := s.tile, s.orientation, Placement(s.orientation, s);
      var after := before + CellMap(s.Footprint(), pl);
      OutputNotPlaced(before, s);
      SingleCell(tile, o);
      SingleCellMap(before, tile, o, pl);
      FreeIsDisjoint(before, tile, o, 1);
      CoversAdded(before, s);
      PortsApartAdded(before, {tile}, pl);
      forall t | t in after
        ensures DeviceAttached(after[t].structure.device)
      {
        AttachedAfter(s, after, t);
      }
      forall t | t in after && after[t].structure.device.ProcessorDevice?
        ensures ChainedAt(after, t)
      {
        ChainedAfter(s, after, t);
      }
      MachinesAfter(s, after);
    }

    // -------------------------------------------------------------------
    // Removing structures
    // -------------------------------------------------------------------

    /** `RemoveFromNetwork` on each of `ports` in turn: a `foreach` over a device's input ports. */
    method RemovePorts(ports: seq<Port>)
      requires signalNetworkGraph.Valid() && Distinct(ports) && forall q :: q in ports ==> Joined(q)
      modifies (set q | q in ports), signalNetworkGraph, signalNetworkGraph.vertices`signalChannel
      ensures signalNetworkGraph.Valid()
      ensures signalNetworkGraph.vertices == old(signalNetworkGraph.vertices) - Elements(ports)
      ensures forall q :: q in ports ==> Out(q)
    {
      assert forall j :: 0 <= j < |ports| ==> ports[j] in ports;
      for i := 0 to |ports|
        invariant signalNetworkGraph.Valid()
        invariant signalNetworkGraph.vertices == old(signalNetworkGraph.vertices) - Elements(ports[..i])
        invariant forall j :: 0 <= j < i ==> Out(ports[j])
        invariant forall j :: i <= j < |ports| ==> ports[j].network == signalNetworkGraph
      {
        ElementsPrefix(ports, i);
        ports[i].RemoveFromNetwork();
      }
      assert ports[..|ports|] == ports;
    }

    /**
     * Removes the structure on `tile`. An empty tile makes the source
     * throw; here the result is `NoStructure` and nothing changes. A rail
     * with trains on it stays, and the result is `Refused`. Otherwise a
     * machine drops its inventory, a processor's chain links are undone so
     * that its neighbours' ends rejoin the network, every port of the
     * device leaves the network, and every tile of the structure's
     * footprint is freed, in the tile map and in each dictionary.
     */
    method RemoveStructure(tile: Vec2) returns (r: Removal)
      requires Valid()
      modifies this`tiles, this`sensors, this`processors, this`actuators, this`splitterPorts, this`rails, this`conveyors, this`machines
      modifies signalNetworkGraph, signalNetworkGraph.vertices`signalChannel, Held(tile)
      modifies InputLinks(tile)`chainedInputProcessor, OutputLinks(tile)`chainedOutputProcessor
      ensures Valid()
      ensures r == NoStructure <==> tile !in old(tiles)
      ensures r == Refused <==> tile in old(tiles) && old(tiles)[tile].structure.device.IsRail() && old(tiles[tile].structure.trains) != []
      ensures r != Removed ==> tiles == old(tiles) && unchanged(signalNetworkGraph)
      ensures r == Removed ==>
                var s := old(tiles)[tile].structure;
                && tiles == old(tiles) - s.Footprint()
                && (forall q :: q in s.device.Ports() ==> Out(q))
                && (s.device.MachineDevice? ==> Dropped(s.device.machine))
                && (s.device.ProcessorDevice? ==> Unchained(s.device.processor, old(s.device.processor.chainedInputProcessor), old(s.device.processor.chainedOutputProcessor)))
    {
      if tile !in tiles {
        return NoStructure;
      }
      var s := tiles[tile].structure;
      if s.device.IsRail() && |s.trains| > 0 {
        return Refused;
      }
      if s.device.ProcessorDevice? {
        RemoveProcessor(tile);
      } else {
        RemoveDevice(tile);
      }
      r := Removed;
    }

    /** The objects removing the structure on `tile` changes: its ports, a machine's inventory and the ends of a processor's links. */
    ghost function Held(tile: Vec2): set<object>
      reads this`tiles, ProcessorsOf(tiles)`chainedInputProcessor, ProcessorsOf(tiles)`chainedOutputProcessor
    {
      if tile in tiles then
        var d := tiles[tile].structure.device;
        assert d.ProcessorDevice? ==> d.processor in ProcessorsOf(tiles);
        d.PortSet() + Inventory(d) + ChainEnds(d)
      else {}
    }

    /** The processors whose input link the removal clears: a removed processor and the one it feeds. */
    ghost function InputLinks(tile: Vec2): set<Processor>
      reads this`tiles, ProcessorsOf(tiles)`chainedOutputProcessor
    {
      if tile in tiles then
        var d := tiles[tile].structure.device;
        assert d.ProcessorDevice? ==> d.processor in ProcessorsOf(tiles);
        d.ProcessorSet() + DownstreamOf(d)
      else {}
    }

    /** The processors whose output link the removal clears: a removed processor and the one feeding it. */
    ghost function OutputLinks(tile: Vec2): set<Processor>
      reads this`tiles, ProcessorsOf(tiles)`chainedInputProcessor
    {
      if tile in tiles then
        var d := tiles[tile].structure.device;
        assert d.ProcessorDevice? ==> d.processor in ProcessorsOf(tiles);
        d.ProcessorSet() + UpstreamOf(d)
      else {}
    }

    /** A machine whose `DropInventory` ran: no ingredient held and every product list empty. */
    ghost predicate Dropped(m: RecipeMachines.RecipeMachine)
      reads m, m.producedResources
    {
      m.ingredientResources == [] && forall c :: 0 <= c < m.producedResources.Length ==> m.producedResources[c] == []
    }

    /** Processor `p`, which was chained to `b` behind and `f` in front, is chained to nothing, and the ends on `b` and `f` are back in the network. */
    ghost predicate Unchained(p: Processor, b: Processor?, f: Processor?)
      reads p`chainedInputProcessor, p`chainedOutputProcessor, Present(b)`chainedOutputProcessor, Present(f)`chainedInputProcessor
      reads Ends(b, f)`network, signalNetworkGraph`vertices
    {
      && p.chainedInputProcessor == null && p.chainedOutputProcessor == null
      && (b != null ==> b.chainedOutputProcessor == null && Joined(b.outputPort))
      && (f != null ==> f.chainedInputProcessor == null && |f.inputPorts| >= 1 && Joined(f.inputPorts[0]))
    }

    /**
     * What removing device `d` leaves behind: its ports have left the
     * network, a machine has dropped its inventory, and a processor is
     * unchained from `b` and `f`, the processors it was chained to.
     */
    ghost predicate Released(d: Device, b: Processor?, f: Processor?)
      reads d.PortSet()`network, signalNetworkGraph`vertices, Inventory(d)
      reads d.ProcessorSet()`chainedInputProcessor, d.ProcessorSet()`chainedOutputProcessor
      reads Present(b)`chainedOutputProcessor, Present(f)`chainedInputProcessor, Ends(b, f)`network
    {
      && (forall q :: q in d.Ports() ==> Out(q))
      && (d.MachineDevice? ==> Dropped(d.machine))
      && (d.ProcessorDevice? ==> Unchained(d.processor, b, f))
    }

    /** `RemoveStructure` for every kind of structure but a processor. */
    method RemoveDevice(tile: Vec2)
      requires Valid() && tile in tiles && !tiles[tile].structure.device.ProcessorDevice?
      modifies this`tiles, this`sensors, this`processors, this`actuators, this`splitterPorts, this`rails, this`conveyors, this`machines
      modifies signalNetworkGraph, signalNetworkGraph.vertices`signalChannel
      modifies tiles[tile].structure.device.PortSet(), Inventory(tiles[tile].structure.device)
      ensures Valid()
      ensures var s := old(tiles)[tile].structure;
              && tiles == old(tiles) - s.Footprint()
              && Released(s.device, null, null)
    {
      var s := tiles[tile].structure;
      var before := tiles;
      DetachAt(tile);
      ForgetReleased(s, before, null, null);
    }

    /** The network side of `RemoveDevice`: afterwards the network agrees with the map without the device. */
    method DetachAt(tile: Vec2)
      requires Valid() && tile in tiles && !tiles[tile].structure.device.ProcessorDevice?
      modifies signalNetworkGraph, signalNetworkGraph.vertices`signalChannel
      modifies tiles[tile].structure.device.PortSet(), Inventory(tiles[tile].structure.device)
      ensures var s := tiles[tile].structure;
              && Sound(tiles - s.Footprint())
              && (forall c :: c in s.Footprint() && c in tiles ==> tiles[c].structure == s)
              && Released(s.device, null, null)
    {
      var s := tiles[tile].structure;
      var d := s.device;
      assert Covered(tiles, tile) && PortsApartAt(tiles, tile, tile) && DeviceAttached(d);
      assert d.MachineDevice? ==> d.machine.Valid();
      Detach(d);
      DeviceRemoved(tile);
    }

    /**
     * The network side of removing a device other than a processor: a
     * machine drops its inventory, and then each of its ports leaves the
     * network (a sensor's output port, an actuator's input ports in order,
     * a splitter's port).
     */
    method Detach(d: Device)
      requires signalNetworkGraph.Valid() && !d.ProcessorDevice? && Distinct(d.Ports())
      requires forall q :: q in d.Ports() ==> Joined(q)
      requires d.MachineDevice? ==> d.machine.Valid()
      modifies d.PortSet(), Inventory(d), signalNetworkGraph, signalNetworkGraph.vertices`signalChannel
      ensures signalNetworkGraph.Valid()
      ensures signalNetworkGraph.vertices == old(signalNetworkGraph.vertices) - d.PortSet()
      ensures forall q :: q in d.Ports() ==> Out(q)
      ensures d.MachineDevice? ==> d.machine.Valid() && Dropped(d.machine)
    {
      if d.MachineDevice? {
        d.machine.DropInventory();
      }
      RemovePorts(d.Ports());
    }

    /** `RemoveStructure` for a processor, which covers the one tile `tile`. */
    method RemoveProcessor(tile: Vec2)
      requires Valid() && tile in tiles && tiles[tile].structure.device.ProcessorDevice?
      modifies this`tiles, this`sensors, this`processors, this`actuators, this`splitterPorts, this`rails, this`conveyors, this`machines
      modifies signalNetworkGraph, signalNetworkGraph.vertices`signalChannel
      modifies tiles[tile].structure.device.processor.PortSet(), ChainEnds(tiles[tile].structure.device)
      modifies tiles[tile].structure.device.processor`chainedInputProcessor, tiles[tile].structure.device.processor`chainedOutputProcessor
      modifies UpstreamOf(tiles[tile].structure.device)`chainedOutputProcessor, DownstreamOf(tiles[tile].structure.device)`chainedInputProcessor
      ensures Valid()
      ensures var s := old(tiles)[tile].structure;
              var p := s.device.processor;
              && tiles == old(tiles) - s.Footprint()
              && Released(s.device, old(p.chainedInputProcessor), old(p.chainedOutputProcessor))
    {
      var s := tiles[tile].structure;
      var before := tiles;
      assert Covered(tiles, tile);
      ghost var p := s.device.processor;
      ghost var b, f := p.chainedInputProcessor, p.chainedOutputProcessor;
      DisconnectAt(before, tile);
      ForgetReleased(s, before, b, f);
    }

    /**
     * The network side of `RemoveProcessor`, for the processor on `tile` of
     * the map `m`: afterwards the network agrees with `m` without it.
     */
    method DisconnectAt(m: map<Vec2, Placement>, tile: Vec2)
      requires Sound(m) && tile in m && m[tile].structure.device.ProcessorDevice?
      modifies signalNetworkGraph, signalNetworkGraph.vertices`signalChannel
      modifies m[tile].structure.device.processor.PortSet(), ChainEnds(m[tile].structure.device)
      modifies m[tile].structure.device.processor`chainedInputProcessor, m[tile].structure.device.processor`chainedOutputProcessor
      modifies UpstreamOf(m[tile].structure.device)`chainedOutputProcessor, DownstreamOf(m[tile].structure.device)`chainedInputProcessor
      ensures var s := m[tile].structure;
              var p := s.device.processor;
              && Sound(m - s.Footprint())
              && (forall c :: c in s.Footprint() && c in m ==> m[c].structure == s)
              && Released(s.device, old(p.chainedInputProcessor), old(p.chainedOutputProcessor))
    {
      var s := m[tile].structure;
      var p := s.device.processor;
      var b, f := p.chainedInputProcessor, p.chainedOutputProcessor;
      DetachableAt(m, tile);
      assert Covered(m, tile);
      SingleCell(s.tile, s.orientation);
      DisconnectFramed(p, b, f);
      ProcessorRemoved(m, tile, p, b, f);
    }

    /**
     * The map removes of `RemoveStructure`: every footprint tile is freed,
     * and so is every dictionary entry on one.
     */
    method Forget(s: Structure)
      requires IndexedBy(tiles) && forall c :: c in s.Footprint() && c in tiles ==> tiles[c].structure == s
      modifies this`tiles, this`sensors, this`processors, this`actuators, this`splitterPorts, this`rails, this`conveyors, this`machines
      ensures tiles == old(tiles) - s.Footprint()
      ensures IndexedBy(tiles)
    {
      var before := tiles;
      tiles := RemoveCells(tiles, s.tile, s.orientation, s.size);
      ForgetFirstParts(s, before, tiles);
      ForgetLastParts(s, before, tiles);
    }

    /** The first four dictionary removes of `Forget`: machines, actuators, rails and sensors. */
    method ForgetFirstParts(s: Structure, before: map<Vec2, Placement>, after: map<Vec2, Placement>)
      requires after == before - s.Footprint() && forall c :: c in s.Footprint() && c in before ==> before[c].structure == s
      requires machines == View(before, MachinePart) && actuators == View(before, ActuatorPart)
      requires rails == View(before, RailPart) && sensors == View(before, SensorPart)
      modifies this`machines, this`actuators, this`rails, this`sensors
      ensures machines == View(after, MachinePart) && actuators == View(after, ActuatorPart)
      ensures rails == View(after, RailPart) && sensors == View(after, SensorPart)
    {
      machines := RemovePart(machines, s, MachinePart, before, after);
      actuators := RemovePart(actuators, s, ActuatorPart, before, after);
      rails := RemovePart(rails, s, RailPart, before, after);
      sensors := RemovePart(sensors, s, SensorPart, before, after);
    }

    /** The last three dictionary removes of `Forget`: conveyors, processors and splitter ports. */
    method ForgetLastParts(s: Structure, before: map<Vec2, Placement>, after: map<Vec2, Placement>)
      requires after == before - s.Footprint() && forall c :: c in s.Footprint() && c in before ==> before[c].structure == s
      requires conveyors == View(before, ConveyorPart) && processors == View(before, ProcessorPart)
      requires splitterPorts == View(before, SplitterPart)
      modifies this`conveyors, this`processors, this`splitterPorts
      ensures conveyors == View(after, ConveyorPart) && processors == View(after, ProcessorPart)
      ensures splitterPorts == View(after, SplitterPart)
    {
      conveyors := RemovePart(conveyors, s, ConveyorPart, before, after);
      processors := RemovePart(processors, s, ProcessorPart, before, after);
      splitterPorts := RemovePart(splitterPorts, s, SplitterPart, before, after);
    }

    /** `Forget` once the network agrees with the map without the structure: the manager is then valid. */
    method ForgetSound(s: Structure, m: map<Vec2, Placement>)
      requires tiles == m && tick < TickModulus && IndexedBy(tiles)
      requires forall c :: c in s.Footprint() && c in m ==> m[c].structure == s
      requires Sound(m - s.Footprint())
      modifies this`tiles, this`sensors, this`processors, this`actuators, this`splitterPorts, this`rails, this`conveyors, this`machines
      ensures Valid()
      ensures tiles == old(tiles) - s.Footprint()
    {
      Forget(s);
      SoundKept(tiles);
    }

    /** `ForgetSound` once the structure's device is released: it stays released. */
    method ForgetReleased(s: Structure, m: map<Vec2, Placement>, ghost b: Processor?, ghost f: Processor?)
      requires Released(s.device, b, f)
      requires tiles == m && tick < TickModulus && IndexedBy(tiles)
      requires forall c :: c in s.Footprint() && c in m ==> m[c].structure == s
      requires Sound(m - s.Footprint())
      modifies this`tiles, this`sensors, this`processors, this`actuators, this`splitterPorts, this`rails, this`conveyors, this`machines
      ensures Valid()
      ensures tiles == m - s.Footprint()
      ensures Released(s.device, b, f)
    {
      ForgetSound(s, m);
      ReleasedKept(s.device, b, f);
    }

    /** `Released` depends only on the ports' network fields, the processors' chain fields and the machine's inventory. */
    twostate lemma ReleasedKept(new d: Device, new b: Processor?, new f: Processor?)
      requires old(allocated(d)) && old(allocated(b)) && old(allocated(f))
      requires old(Released(d, b, f))
      requires signalNetworkGraph.vertices == old(signalNetworkGraph.vertices) && unchanged(Inventory(d))
      requires forall q: Port :: old(allocated(q)) ==> q.network == old(q.network)
      requires forall q: Processor :: old(allocated(q)) ==>
                 q.chainedInputProcessor == old(q.chainedInputProcessor) && q.chainedOutputProcessor == old(q.chainedOutputProcessor)
      ensures Released(d, b, f)
    {
    }

    /**
     * After `Detach` on the device placed on `t`, the network and the
     * structures agree on the map without that device's footprint.
     */
    twostate lemma DeviceRemoved(t: Vec2)
      requires old(Valid()) && t in old(tiles)
      requires !old(tiles)[t].structure.device.ProcessorDevice?
      requires signalNetworkGraph.Valid()
      requires signalNetworkGraph.vertices == old(signalNetworkGraph.vertices) - old(tiles)[t].structure.device.PortSet()
      requires forall q: Port :: old(allocated(q)) && q !in old(tiles)[t].structure.device.PortSet() ==> q.network == old(q.network)
      requires forall q: Processor :: old(allocated(q)) ==>
                 && q.chainedInputProcessor == old(q.chainedInputProcessor) && q.chainedOutputProcessor == old(q.chainedOutputProcessor)
                 && q.network == old(q.network) && q.outputQueue == old(q.outputQueue)
      requires forall m: RecipeMachines.RecipeMachine :: old(allocated(m)) && old(m.Valid()) ==> m.Valid()
      ensures Sound(old(tiles) - old(tiles)[t].structure.Footprint())
    {
      var before := old(tiles);
      var s := before[t].structure;
      var after := before - s.Footprint();
      var removed: set<Port>, none: set<Processor> := s.device.PortSet(), {};
      assert Covered(before, t);
      CoversRemoved(before, t);
      PortsApartRemoved(before, s.Footprint());
      forall t' | t' in after
        ensures DeviceAttached(after[t'].structure.device)
      {
        var d := before[t'].structure.device;
        assert old(DeviceAttached(d)) && PortsApartAt(before, t', t);
        KeptAttached(d, removed, none);
      }
      forall t' | t' in after && after[t'].structure.device.ProcessorDevice?
        ensures ChainedAt(after, t')
      {
        var o := after[t'].orientation;
        assert old(ChainedAt(before, t'));
        assert after[t'].structure.device.processor in ProcessorsOf(before);
        AlignedRemoved(before, s.Footprint(), t'.Minus(o), o);
        AlignedRemoved(before, s.Footprint(), t'.Plus(o), o);
      }
      forall t' | t' in after && after[t'].structure.device.MachineDevice?
        ensures after[t'].structure.device.machine.Valid()
      {
        assert after[t'] == before[t'];
      }
    }

    /**
     * After `DisconnectProcessor` on the processor placed on `t`, the
     * network and the structures agree on the map without `t`: the map
     * removes that follow only have to forget it.
     */
    twostate lemma ProcessorRemoved(new before: map<Vec2, Placement>, t: Vec2, new p: Processor, new b: Processor?, new f: Processor?)
      requires old(allocated(before)) && old(Sound(before)) && t in before && before[t].structure.device.ProcessorDevice?
      requires signalNetworkGraph.Valid()
      requires p == before[t].structure.device.processor
      requires old(allocated(p)) && b == old(p.chainedInputProcessor) && f == old(p.chainedOutputProcessor)
      requires Unchained(p, b, f)
               && signalNetworkGraph.vertices == old(signalNetworkGraph.vertices) + Ends(b, f) - p.PortSet()
               && (forall q: Port :: old(allocated(q)) && q !in p.PortSet() + Ends(b, f) ==> q.network == old(q.network))
               && (forall q: Processor :: old(allocated(q)) && q != p ==>
                     && q.network == old(q.network) && q.outputQueue == old(q.outputQueue)
                     && (q != b ==> q.chainedOutputProcessor == old(q.chainedOutputProcessor))
                     && (q != f ==> q.chainedInputProcessor == old(q.chainedInputProcessor)))
      requires forall m: RecipeMachines.RecipeMachine :: old(allocated(m)) && old(m.Valid()) ==> m.Valid()
      ensures Sound(before - before[t].structure.Footprint())
      ensures forall c :: c in before[t].structure.Footprint() && c in before ==> before[c].structure == before[t].structure
    {
      var after := before - {t};
      var s := before[t].structure;
      assert Covered(before, t);
      SingleCell(s.tile, s.orientation);
      CoversRemoved(before, t);
      PortsApartRemoved(before, {t});
      forall t' | t' in after
        ensures DeviceAttached(after[t'].structure.device)
      {
        AttachedAfterRemoval(before, t, t', p, b, f);
      }
      forall t' | t' in after && after[t'].structure.device.ProcessorDevice?
        ensures ChainedAt(after, t')
      {
        ChainedAfterRemoval(before, t, t', p, b, f);
      }
      forall t' | t' in after && after[t'].structure.device.MachineDevice?
        ensures after[t'].structure.device.machine.Valid()
      {
        assert old(MachinesReady(before));
      }
    }

    /** A device placed on another tile than the removed processor's stays attached. */
    twostate lemma AttachedAfterRemoval(new before: map<Vec2, Placement>, new t: Vec2, new t': Vec2, new p: Processor, new b: Processor?, new f: Processor?)
      requires old(allocated(before)) && Covers(before) && PortsApart(before) && old(Attached(before)) && old(ChainsAligned(before))
      requires t in before && before[t].structure.device.ProcessorDevice? && t' in before && t' != t
      requires p == before[t].structure.device.processor
      requires old(allocated(p)) && b == old(p.chainedInputProcessor) && f == old(p.chainedOutputProcessor)
      requires Unchained(p, b, f)
               && signalNetworkGraph.vertices == old(signalNetworkGraph.vertices) + Ends(b, f) - p.PortSet()
               && (forall q: Port :: old(allocated(q)) && q !in p.PortSet() + Ends(b, f) ==> q.network == old(q.network))
               && (forall q: Processor :: old(allocated(q)) && q != p ==>
                     && q.network == old(q.network) && q.outputQueue == old(q.outputQueue)
                     && (q != b ==> q.chainedOutputProcessor == old(q.chainedOutputProcessor))
                     && (q != f ==> q.chainedInputProcessor == old(q.chainedInputProcessor)))
      ensures DeviceAttached(before[t'].structure.device)
    {
      var s := before[t].structure;
      var o := before[t].orientation;
      var d := before[t'].structure.device;
      assert Covered(before, t) && Covered(before, t') && old(ChainedAt(before, t));
      SingleCell(s.tile, s.orientation);
      assert before[t'].structure != s;
      assert PortsApartAt(before, t', t) && old(DeviceAttached(d));
      NeighbourPorts(before, t, o, t');
      if d.ProcessorDevice? && d.processor == p {
        OneTileEach(before, t', t);
      }
      forall q | q in d.Ports()
        ensures q !in p.PortSet()
      {
        assert q in d.PortSet();
      }
      Reattached(d, p.PortSet() + Ends(b, f));
    }

    /** A processor placed on another tile than the removed processor `p` is chained as it was, except to `p`. */
    twostate lemma ChainedAfterRemoval(new before: map<Vec2, Placement>, new t: Vec2, new t': Vec2, new p: Processor, new b: Processor?, new f: Processor?)
      requires old(allocated(before)) && Covers(before) && PortsApart(before) && old(ChainsAligned(before))
      requires t in before && before[t].structure.device.ProcessorDevice?
      requires t' in before && t' != t && before[t'].structure.device.ProcessorDevice?
      requires p == before[t].structure.device.processor
      requires old(allocated(p)) && b == old(p.chainedInputProcessor) && f == old(p.chainedOutputProcessor)
      requires (b != null ==> b.chainedOutputProcessor == null)
               && (f != null ==> f.chainedInputProcessor == null)
               && (forall q: Processor :: old(allocated(q)) && q != p ==>
                     && (q != b ==> q.chainedOutputProcessor == old(q.chainedOutputProcessor))
                     && (q != f ==> q.chainedInputProcessor == old(q.chainedInputProcessor)))
      ensures ChainedAt(before - {t}, t')
    {
      var q := before[t'].structure.device.processor;
      assert old(ChainedAt(before, t)) && old(ChainedAt(before, t'));
      AlignedAround(before, t, t');
      if q == before[t].structure.device.processor {
        OneTileEach(before, t', t);
      }
    }

    /**
     * A placed processor `p`, chained to `b` behind and `f` in front as
     * `Linked` describes, whose links can be undone: its ports are its
     * own and not `b`'s output or `f`'s first input, and `b`, `p` and `f`
     * are different processors, `f` on this network.
     */
    ghost predicate Detachable(p: Processor, b: Processor?, f: Processor?)
      reads p, Present(b)`chainedOutputProcessor, Present(f)`chainedInputProcessor, Present(f)`network
      reads signalNetworkGraph`vertices, Ends(b, f)`network, p.inputPorts, p.outputPort
    {
      && Linked(p, b, f) && Distinct(p.inputPorts + [p.outputPort])
      && (b != null ==> b != p && b.outputPort !in p.inputPorts + [p.outputPort])
      && (f != null ==> f != p && f.network == signalNetworkGraph && f.inputPorts[0] !in p.inputPorts + [p.outputPort])
      && (b != null && f != null ==> b != f && b.outputPort != f.inputPorts[0])
    }

    /** On a sound map every placed processor is detachable from the processors its chain fields name. */
    lemma DetachableAt(m: map<Vec2, Placement>, t: Vec2)
      requires Sound(m) && t in m && m[t].structure.device.ProcessorDevice?
      ensures var p := m[t].structure.device.processor;
              Detachable(p, p.chainedInputProcessor, p.chainedOutputProcessor)
    {
      var d := m[t].structure.device;
      var p, o := d.processor, m[t].orientation;
      var b, f := p.chainedInputProcessor, p.chainedOutputProcessor;
      var tb, tf := t.Minus(o), t.Plus(o);
      assert ChainedAt(m, t) && DeviceAttached(d) && PortsApartAt(m, t, t) && Covered(m, t);
      if b != null {
        assert ChainedAt(m, tb) && DeviceAttached(m[tb].structure.device);
        assert tb.Plus(o) == t;
        if b == p {
          OneTileEach(m, tb, t);
        }
        assert PortsApartAt(m, tb, t);
        assert b.outputPort in m[tb].structure.device.PortSet();
      }
      if f != null {
        assert ChainedAt(m, tf) && DeviceAttached(m[tf].structure.device);
        assert tf.Minus(o) == t;
        if f == p {
          OneTileEach(m, tf, t);
        }
        assert PortsApartAt(m, tf, t);
        assert f.inputPorts[0] in m[tf].structure.device.PortSet();
      }
      if b != null && f != null {
        if b == f {
          OneTileEach(m, tb, tf);
        }
        assert PortsApartAt(m, tb, tf);
      }
    }

    /** `DisconnectProcessor`, with what it leaves alone: other ports, other processors' fields and every machine. */
    method DisconnectFramed(p: Processor, b: Processor?, f: Processor?)
      requires signalNetworkGraph.Valid() && Detachable(p, b, f)
      modifies p`chainedInputProcessor, p`chainedOutputProcessor, Present(b)`chainedOutputProcessor, Present(f)`chainedInputProcessor
      modifies p.PortSet(), Ends(b, f), signalNetworkGraph, signalNetworkGraph.vertices`signalChannel
      ensures signalNetworkGraph.Valid()
      ensures Unchained(p, b, f)
      ensures forall q :: q in ProcessorDevice(p).Ports() ==> Out(q)
      ensures signalNetworkGraph.vertices == old(signalNetworkGraph.vertices) + Ends(b, f) - p.PortSet()
      ensures forall q: Port :: old(allocated(q)) && q !in p.PortSet() + Ends(b, f) ==> q.network == old(q.network)
      ensures forall q: Processor :: old(allocated(q)) && q != p ==>
                && q.network == old(q.network) && q.outputQueue == old(q.outputQueue)
                && (q != b ==> q.chainedOutputProcessor == old(q.chainedOutputProcessor))
                && (q != f ==> q.chainedInputProcessor == old(q.chainedInputProcessor))
      ensures forall m: RecipeMachines.RecipeMachine :: old(allocated(m)) && old(m.Valid()) ==> m.Valid()
    {
      DisconnectProcessor(p, b, f);
    }

    /**
     * The network side of removing a processor: the input link is undone,
     * then the output link, which gives the neighbours' ends back to the
     * network, and then every port of the processor leaves it, the input
     * ports in order and then the output port.
     */
    method DisconnectProcessor(p: Processor, b: Processor?, f: Processor?)
      requires signalNetworkGraph.Valid() && Detachable(p, b, f)
      modifies p`chainedInputProcessor, p`chainedOutputProcessor, Present(b)`chainedOutputProcessor, Present(f)`chainedInputProcessor
      modifies p.PortSet(), Ends(b, f), signalNetworkGraph, signalNetworkGraph.vertices`signalChannel
      ensures signalNetworkGraph.Valid()
      ensures Unchained(p, b, f)
      ensures forall q :: q in p.inputPorts + [p.outputPort] ==> Out(q)
      ensures signalNetworkGraph.vertices == old(signalNetworkGraph.vertices) + Ends(b, f) - p.PortSet()
    {
      var all := p.inputPorts + [p.outputPort];
      RestApart(p, b, f);
      ghost var v0 := signalNetworkGraph.vertices;
      Unlink(p, b, f);
      ghost var v1 := signalNetworkGraph.vertices;
      AllJoined(p);
      RemovePorts(all);
      LinkEndsOutside(p, b, f);
      Regrouped(v0, v1 - v0, Ends(b, f), p.PortSet());
    }

    /** Apart from `p`'s own ports, unlinking gives the network back exactly the ends on the neighbours. */
    lemma LinkEndsOutside(p: Processor, b: Processor?, f: Processor?)
      requires |p.inputPorts| >= 1
      requires f != null ==> |f.inputPorts| >= 1
      ensures var back := (if b != null then {p.inputPorts[0], b.outputPort} else {})
                        + (if f != null then {f.inputPorts[0], p.outputPort} else {});
              back - p.PortSet() == Ends(b, f) - p.PortSet()
      ensures Elements(p.inputPorts + [p.outputPort]) == p.PortSet()
    {
      assert p.inputPorts[0] in p.inputPorts + [p.outputPort];
    }

    /**
     * The ports of `p` other than its first input and its output: none of
     * them is an end of a link, and they are all in the network.
     */
    lemma RestApart(p: Processor, b: Processor?, f: Processor?)
      requires Detachable(p, b, f)
      ensures Rest(p) !! {p.inputPorts[0], p.outputPort} && Rest(p) !! Ends(b, f)
      ensures forall q :: q in Rest(p) ==> Joined(q)
      ensures p.inputPorts[0] != p.outputPort
    {
      var all := p.inputPorts + [p.outputPort];
      assert all[0] == p.inputPorts[0] && all[|p.inputPorts|] == p.outputPort;
      forall i | 1 <= i < |p.inputPorts|
        ensures p.inputPorts[i] != p.inputPorts[0] && p.inputPorts[i] != p.outputPort && p.inputPorts[i] !in Ends(b, f)
      {
        assert all[i] == p.inputPorts[i];
        assert p.inputPorts[i] in all;
      }
    }

    /** Every port of `p` is in the network once its first input, its output and the rest are. */
    lemma AllJoined(p: Processor)
      requires |p.inputPorts| >= 1 && Joined(p.inputPorts[0]) && Joined(p.outputPort)
      requires forall q :: q in Rest(p) ==> Joined(q)
      ensures forall q :: q in p.inputPorts + [p.outputPort] ==> Joined(q)
    {
      var all := p.inputPorts + [p.outputPort];
      forall q | q in all
        ensures Joined(q)
      {
        var i :| 0 <= i < |all| && all[i] == q;
        if 1 <= i < |p.inputPorts| {
          assert q in Rest(p);
        }
      }
    }

    /** The two unchain steps of `DisconnectProcessor`: afterwards both ends of each link are in the network. */
    method Unlink(p: Processor, b: Processor?, f: Processor?)
      requires signalNetworkGraph.Valid() && p.network == signalNetworkGraph && |p.inputPorts| >= 1
      requires p.chainedInputProcessor == b && p.chainedOutputProcessor == f && p.inputPorts[0] != p.outputPort
      requires b == null ==> Joined(p.inputPorts[0])
      requires f == null ==> Joined(p.outputPort)
      requires b != null ==>
                 && b != p && b.chainedOutputProcessor == p && Out(b.outputPort) && Out(p.inputPorts[0])
                 && b.outputPort != p.inputPorts[0] && b.outputPort != p.outputPort
      requires f != null ==>
                 && f != p && f.network == signalNetworkGraph && |f.inputPorts| >= 1 && f.chainedInputProcessor == p
                 && Out(f.inputPorts[0]) && Out(p.outputPort)
                 && f.inputPorts[0] != p.outputPort && f.inputPorts[0] != p.inputPorts[0]
      requires b != null && f != null ==> b != f && b.outputPort != f.inputPorts[0]
      modifies p`chainedInputProcessor, p`chainedOutputProcessor, Present(b)`chainedOutputProcessor, Present(f)`chainedInputProcessor
      modifies {p.inputPorts[0], p.outputPort} + Ends(b, f), signalNetworkGraph
      ensures signalNetworkGraph.Valid()
      ensures p.chainedInputProcessor == null && p.chainedOutputProcessor == null
      ensures b != null ==> b.chainedOutputProcessor == null && Joined(b.outputPort)
      ensures f != null ==> f.chainedInputProcessor == null && Joined(f.inputPorts[0])
      ensures Joined(p.inputPorts[0]) && Joined(p.outputPort)
      ensures signalNetworkGraph.vertices == old(signalNetworkGraph.vertices)
                + (if b != null then {p.inputPorts[0], b.outputPort} else {})
                + (if f != null then {f.inputPorts[0], p.outputPort} else {})
    {
      UnchainInput(p, b);
      UnchainOutput(p, f);
    }

    /** `Unchain`, when `p` is input-chained: `b` and `p` are unlinked and both ends rejoin the network. */
    method UnchainInput(p: Processor, b: Processor?)
      requires signalNetworkGraph.Valid() && p.network == signalNetworkGraph && |p.inputPorts| >= 1 && p.chainedInputProcessor == b
      requires b != null ==> b.chainedOutputProcessor == p && b.outputPort != p.inputPorts[0] && Out(b.outputPort) && Out(p.inputPorts[0])
      modifies p`chainedInputProcessor, Present(b)`chainedOutputProcessor, signalNetworkGraph
      modifies if b != null then {p.inputPorts[0], b.outputPort} else {}
      ensures signalNetworkGraph.Valid() && p.chainedInputProcessor == null
      ensures b != null ==> b.chainedOutputProcessor == null && Joined(b.outputPort) && Joined(p.inputPorts[0])
      ensures signalNetworkGraph.vertices == old(signalNetworkGraph.vertices) + (if b != null then {p.inputPorts[0], b.outputPort} else {})
    {
      if p.IsInputChained() {
        var _ := p.Unchain();
      }
    }

    /** `UnchainOutput`, when `p` is output-chained: `p` and `f` are unlinked and both ends rejoin the network. */
    method UnchainOutput(p: Processor, f: Processor?)
      requires signalNetworkGraph.Valid() && p.chainedOutputProcessor == f
      requires f != null ==>
                 && f.network == signalNetworkGraph && |f.inputPorts| >= 1 && f.chainedInputProcessor == p
                 && f.inputPorts[0] != p.outputPort && Out(f.inputPorts[0]) && Out(p.outputPort)
      modifies p`chainedOutputProcessor, Present(f)`chainedInputProcessor, signalNetworkGraph
      modifies if f != null then {f.inputPorts[0], p.outputPort} else {}
      ensures signalNetworkGraph.Valid() && p.chainedOutputProcessor == null
      ensures f != null ==> f.chainedInputProcessor == null && Joined(f.inputPorts[0]) && Joined(p.outputPort)
      ensures signalNetworkGraph.vertices == old(signalNetworkGraph.vertices) + (if f != null then {f.inputPorts[0], p.outputPort} else {})
    {
      if p.IsOutputChained() {
        var _ := p.UnchainOutput();
      }
    }

    // -------------------------------------------------------------------
    // Materials
    // -------------------------------------------------------------------

    /** Whether the stock can pay `costs`, kind by kind; kinds beyond `costs` are not looked at. */
    method HasMaterials(costs: seq<int>) returns (has: bool)
      requires |costs| <= materials.Length
      ensures has <==> Affordable(materials[..], costs)
    {
      for i := 0 to |costs|
        invariant forall j :: 0 <= j < i ==> materials[j] >= costs[j]
      {
        if materials[i] < costs[i] {
          return false;
        }
      }
      return true;
    }

    /** Pays `costs` from the stock with no check that it is affordable. */
    method SpendMaterials(costs: seq<int>)
      requires |costs| <= materials.Length
      modifies materials
      ensures materials[..] == Spent(old(materials[..]), costs)
    {
      for i := 0 to |costs|
        invariant materials[..] == Spent(old(materials[..]), costs[..i])
      {
        materials[i] := Wrap32(materials[i] - costs[i]);
      }
      assert costs[..|costs|] == costs;
    }

    /** Adds `gains` to the stock. */
    method AddMaterials(gains: seq<int>)
      requires |gains| <= materials.Length
      modifies materials
      ensures materials[..] == Gained(old(materials[..]), gains)
    {
      for i := 0 to |gains|
        invariant materials[..] == Gained(old(materials[..]), gains[..i])
      {
        materials[i] := Wrap32(materials[i] + gains[i]);
      }
      assert gains[..|gains|] == gains;
    }

    // -------------------------------------------------------------------
    // Rails
    // -------------------------------------------------------------------

    /**
     * The way a train leaves the rail on `tile` when it runs in facing
     * `orientation`: none (the zero vector) off the rails. A dynamic rail
     * sends it back along the first of its train orientations that is not
     * `orientation`, reversed, or nowhere when there is none; a sensor or
     * actuator rail decides by its own class, given here as `railNext`.
     */
    method GetNextTrainOrientation(tile: Vec2, orientation: Vec2, railNext: (Structure, Vec2) -> Vec2) returns (r: Vec2)
      ensures tile !in rails ==> r == Zero
      ensures tile in rails && rails[tile].device.DynamicRail? ==>
                var os := rails[tile].trainOrientations;
                match FirstOther(os, orientation)
                case None => r == Zero
                case Some(i) => r == os[i].Neg()
      ensures tile in rails && (rails[tile].device.SensorRail? || rails[tile].device.ActuatorRail?) ==>
                r == railNext(rails[tile], orientation)
      ensures tile in rails && !rails[tile].device.IsRail() ==> r == Zero
    {
      if tile !in rails {
        return Zero;
      }
      var rail := rails[tile];
      if rail.device.DynamicRail? {
        var os := rail.trainOrientations;
        for i := 0 to |os|
          invariant forall j :: 0 <= j < i ==> os[j] == orientation
        {
          if os[i] != orientation {
            return os[i].Neg();
          }
        }
        return Zero;
      } else if rail.device.SensorRail? || rail.device.ActuatorRail? {
        return railNext(rail, orientation);
      }
      return Zero;
    }

    // -------------------------------------------------------------------
    // The tick
    // -------------------------------------------------------------------

    /**
     * One fixed update: a tick, then the `ulong` tick counter goes up by
     * one, wrapping at 2^64. The tick is returned as the steps it runs over
     * the current dictionaries, each phase taking its dictionary in the
     * order a `foreach` hands out its entries (`so`, `po`, `ao`, `mo`):
     * reset, then sensors, registers, processing, actuators and machines,
     * each device once per tile it covers.
     */
    method FixedUpdate() returns (steps: seq<Step>, so: seq<Vec2>, po: seq<Vec2>, ao: seq<Vec2>, mo: seq<Vec2>)
      requires Valid()
      modifies this`tick
      ensures Valid() && tick == (old(tick) + 1) % TickModulus
      ensures Enumerates(so, sensors) && Enumerates(po, processors)
      ensures Enumerates(ao, actuators) && Enumerates(mo, machines)
      ensures steps == Schedule(sensors, processors, actuators, machines, so, po, ao, mo)
      ensures steps[0] == ResetChannels && InPhaseOrder(steps)
    {
      // The source counts after the tick; no step reads the counter, so counting first is the same.
      tick := (tick + 1) % TickModulus;
      assert IndexedBy(tiles) && Sound(tiles);
      EnumerationExists(sensors);
      EnumerationExists(processors);
      EnumerationExists(actuators);
      EnumerationExists(machines);
      so :| Enumerates(so, sensors);
      po :| Enumerates(po, processors);
      ao :| Enumerates(ao, actuators);
      mo :| Enumerates(mo, machines);
      steps := Schedule(sensors, processors, actuators, machines, so, po, ao, mo);
      ScheduleInPhaseOrder(sensors, processors, actuators, machines, so, po, ao, mo);
    }

    /**
     * A processor chained to the output of another is processed twice in a
     * tick: once by its own step of the processing phase, and once more
     * from the step of the processor feeding it, whose `Process` runs on
     * down the chain.
     */
    lemma ChainedProcessedTwice(so: seq<Vec2>, po: seq<Vec2>, ao: seq<Vec2>, mo: seq<Vec2>, t: Vec2)
      requires Valid()
      requires Enumerates(so, sensors) && Enumerates(po, processors)
      requires Enumerates(ao, actuators) && Enumerates(mo, machines)
      requires t in processors && processors[t].chainedOutputProcessor != null
      ensures var steps := Schedule(sensors, processors, actuators, machines, so, po, ao, mo);
              var q := processors[t].chainedOutputProcessor;
              && q != processors[t]
              && multiset(steps)[ProcessSignals(processors[t])] >= 1 && multiset(steps)[ProcessSignals(q)] >= 1
              && ProcessRuns(steps, q) >= 2
    {
      var steps := Schedule(sensors, processors, actuators, machines, so, po, ao, mo);
      var p := processors[t];
      var o := tiles[t].orientation;
      assert ChainedAt(tiles, t);
      var t' := t.Plus(o);
      var q := p.chainedOutputProcessor;
      assert t' in processors && processors[t'] == q;
      assert Covered(tiles, t);
      if p == q {
        OneTileEach(tiles, t, t');
      }
      ProcessedOnTile(sensors, processors, actuators, machines, so, po, ao, mo, t);
      ProcessedOnTile(sensors, processors, actuators, machines, so, po, ao, mo, t');
      ChainedRunsTwice(steps, p, q);
    }
  }
}
