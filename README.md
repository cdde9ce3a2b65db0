# Transport Nexus Inc: signal networks, devices and the game manager in Dafny

This project models the simulation core of the Unity game Transport Nexus
Inc and proves properties of it. Modules:

- **PortGraphs** (`port_graphs.dfy`): the undirected multigraph of ports and
  wires, reachability and connected components. It also holds the channel
  invariant the networks keep: a port has a channel exactly when it has a
  wire, the two ends of a wire share a channel, ports of different
  components never share one, and every channel in use is tracked for the
  per-tick reset. Each graph operation is proved to preserve it.
- **Signals** (`signals.dfy`): the live network `PortNetworkGraph`, its
  `Channel` and its `Port`. These are classes whose methods update the port
  graph, the wire dictionary, the tracked channel list and the ports'
  channels in place. The breadth-first flood fill is a loop proved to colour
  exactly the start port's component.
- **Structures** (`structures.dfy`): the second copy of the network in
  namespace `Structures`, with the `Sensor`, `Actuator` and `Processor`
  behaviours. A processor has a delay register. It can be chained, so that a
  signal passes to the next processor within the same tick, and `Process`
  runs recursively down such a chain.
  Each tick advances the registers before the processors compute, so a
  value computed with delay `d` reaches the output port `d + 1` ticks later:
  with the default delay of 1, two ticks later.
- **Components** (`components.dfy`): the legacy network, where every port
  owns a channel from the moment it joins. It has its own ports, sensor,
  single-input actuator and processor, whose input array
  `SetInputChannelCount` rebuilds.
- **Gates** (`gates.dfy`): the `ProcessSignal` loops of the AND, MAX, XOR,
  NOT, subtracter, adder and legacy OR gates. Each loop is proved equal to a
  specification function that states the gate's meaning.
- **Recipes** and **RecipeMachines** (`recipe_book.dfy`,
  `recipe_machine.dfy`): recipe matching over input slots, and the recipe
  machine's idle, running and finishing state machine.
- **RailDevices** and **Intersections** (`rail_devices.dfy`,
  `intersections.dfy`): the train detector, the train stop, and the rail and
  conveyor T-intersections switched by a signal.
- **Trains** (`trains.dfy`): a train's path bookkeeping, kept in half-tile
  units.
- **MaterialStock**, **Footprints**, **TickSchedule** and **GameManagement**
  (`materials.dfy`, `footprint.dfy`, `schedule.dfy`, `game_manager.dfy`):
  - the materials stock, in 32-bit wrap-around arithmetic;
  - the square footprint a structure covers;
  - the order of one tick;
  - the `GameManager` class. It adds and removes structures over its
    per-tile dictionaries, joins their ports to the network and chains
    processors placed in line.
- **Grid** and **Lists** (`grid.dfy`, `lists.dfy`): orientations and quarter
  turns, and .NET's `List<T>.Remove`.

The source's `float` signals are modelled as `int`. The gates only take
maxima, minima, sums, clamps and comparisons, so nothing depends on
fractions. The materials counts are C# `int`s, and spending and gaining are
modelled modulo 2^32.

Recipe books are not checked when a machine is built. A recipe may name an
input or output channel the machine does not have. The source then throws
when the scan or the finish reaches that channel. The model returns that
exception as a `Thrown` scan result or a `thrown` flag, and states the state
the machine is left in.

The game manager's network field is declared with the `Signals` type, but
the sensors, processors and actuators it initializes are those of namespace
`Structures`, whose `Initialize` takes the `Structures` network. The model
gives the manager a `Structures.SignalNetworkGraph`, so that every device's
ports join the one network the manager owns. The `Signals` copy is modelled
on its own, under the same invariant.

## Model

| member | source | states |
|---|---|---|
| Gates.AndOf | Assets/Scripts/Structures/AndGate.cs:6-15 | the AND output is at most 1 and at most every connected input, and it is either 1 or the value of some connected input |
| Gates.AndGate | Assets/Scripts/Structures/AndGate.cs:8-14 | the loop starting at 1 and skipping unconnected inputs computes `AndOf` |
| Gates.AndIgnoresUnconnected | Assets/Scripts/Structures/AndGate.cs:11 | values on unconnected inputs never change the AND output |
| Gates.AndNoneConnected | Assets/Scripts/Structures/AndGate.cs:8-11 | with no connected input the AND output is 1 |
| Gates.MaxOf | Assets/Scripts/Structures/MaxGate.cs:6-14 | the MAX output is at least 0 and at least every input, and it is 0 or one of the inputs (so empty input gives 0) |
| Gates.MaxGate | Assets/Scripts/Structures/MaxGate.cs:8-13 | the fold starting at 0 computes `MaxOf` |
| Gates.MaxPermutation | Assets/Scripts/Structures/MaxGate.cs:9-12 | reordering the inputs never changes the MAX output |
| Gates.OrOf | Assets/Scripts/Components/OrGate.cs:6-14 | the OR output is 0 or 1, and it is 1 exactly when some input is positive |
| Gates.OrGate | Assets/Scripts/Components/OrGate.cs:8-13 | the max fold followed by the threshold computes `OrOf` |
| Gates.OrPermutation | Assets/Scripts/Components/OrGate.cs:9-12 | reordering the inputs never changes the OR output |
| Gates.AdderOf | Assets/Scripts/Structures/Adder.cs:14-19 | the adder output is at most 15; it is the sum when the sum is at most 15 and 15 otherwise (so empty input gives 0) |
| Gates.Adder | Assets/Scripts/Structures/Adder.cs:14-19 | the summing loop and the clamp compute `AdderOf` |
| Gates.AdderPermutation | Assets/Scripts/Structures/Adder.cs:15-18 | reordering the inputs never changes the adder output |
| Gates.SumPermutation | Assets/Scripts/Structures/Adder.cs:15-18 | the sum the adder and XOR loops build is independent of the input order |
| Gates.XorOf | Assets/Scripts/Structures/XorGate.cs:8-13 | the XOR output is 0 or 1, and it is 1 exactly when the inputs sum to 1 |
| Gates.XorGate | Assets/Scripts/Structures/XorGate.cs:8-13 | the summing loop and the comparison compute `XorOf` |
| Gates.XorOneHot | Assets/Scripts/Structures/XorGate.cs:8-13 | on inputs that are all 0 or 1, the XOR output is 1 exactly when exactly one input is 1 |
| Gates.XorAllZero | Assets/Scripts/Structures/XorGate.cs:8-13 | all-zero input, including empty input, gives 0 |
| Gates.NotOf | Assets/Scripts/Structures/NotGate.cs:6-9 | the NOT output is at least 0; input 0 gives 1, any input of at least 1 gives 0, and only the first input is read |
| Gates.NotAntitone | Assets/Scripts/Structures/NotGate.cs:8 | a larger first input never gives a larger NOT output |
| Gates.SubtracterOf | Assets/Scripts/Structures/Subtracter.cs:6-9 | the output is at least 0, and it equals `x0 - x1 - x2` whenever that is non-negative |
| Gates.SubtracterMonotone | Assets/Scripts/Structures/Subtracter.cs:8 | the output grows with `x0` and shrinks with `x1` and `x2` |
| Gates.SubtracterReadsThree | Assets/Scripts/Structures/Subtracter.cs:8 | inputs after the third never change the output |
| Grid.Clockwise | Assets/Scripts/Structures/ConveyorBeltTIntersection.cs:35 | the quarter turn `(y, -x)` is perpendicular to its argument and maps unit orientations to unit orientations |
| Grid.CounterClockwise | Assets/Scripts/Structures/RailTIntersection.cs:34 | the quarter turn `(-y, x)` is perpendicular to its argument and is the opposite of `(y, -x)` |
| Intersections.RailTIntersection.constructor | Assets/Scripts/Structures/RailTIntersection.cs:11 | a new rail intersection is set to the right turn |
| Intersections.RailTIntersection.GetCurrentTrainOrientations | Assets/Scripts/Structures/RailTIntersection.cs:31-36 | two directions: the tile orientation first, then `(-y, x)` on a right turn and `(y, -x)` otherwise, perpendicular to the tile |
| Intersections.RailTIntersection.GetAllTrainOrientations | Assets/Scripts/Structures/RailTIntersection.cs:38-42 | three directions: the tile orientation, then two opposite perpendicular ones |
| Intersections.RailTIntersection.WriteActuator | Assets/Scripts/Structures/RailTIntersection.cs:44-47 | the switch selects the right turn exactly when the first input is 0 |
| Intersections.RailCurrentInAll | Assets/Scripts/Structures/RailTIntersection.cs:31-42 | every current direction is among all the directions, whatever the switch says |
| Intersections.RailAllDistinct | Assets/Scripts/Structures/RailTIntersection.cs:41 | for a non-zero orientation the three directions are pairwise distinct |
| Intersections.RailSwitchKeepsStraight | Assets/Scripts/Structures/RailTIntersection.cs:34-35 | flipping the switch keeps the straight direction and turns the branch into its opposite |
| Intersections.ConveyorBeltTIntersection.constructor | Assets/Scripts/Structures/ConveyorBeltTIntersection.cs:12 | a new belt intersection is set to the right turn |
| Intersections.ConveyorBeltTIntersection.GetNextExitOrientation | Assets/Scripts/Structures/ConveyorBeltTIntersection.cs:32-36 | the exit is `(y, -x)` on a right turn and `(-y, x)` otherwise, perpendicular to the tile |
| Intersections.ConveyorBeltTIntersection.GetExitOrientations | Assets/Scripts/Structures/ConveyorBeltTIntersection.cs:38-46 | two exits, right turn first, opposite to each other and perpendicular to the tile |
| Intersections.ConveyorBeltTIntersection.WriteActuator | Assets/Scripts/Structures/ConveyorBeltTIntersection.cs:48-51 | the switch selects the right turn exactly when the first input is 0 |
| Intersections.BeltNextExitIsExit | Assets/Scripts/Structures/ConveyorBeltTIntersection.cs:32-46 | the exit taken is always one of the two exits |
| Intersections.BeltExitTurns | Assets/Scripts/Structures/ConveyorBeltTIntersection.cs:35 | for a non-zero orientation the exit is neither the tile orientation nor its opposite |
| RailDevices.TrainDetector.constructor | Assets/Scripts/Structures/TrainDetector.cs:8 | a new detector is in presence mode |
| RailDevices.TrainDetector.ReadSensor | Assets/Scripts/Structures/TrainDetector.cs:27-40 | the reading is 0 or 1; always 0 in weight mode, otherwise 1 exactly when a train is on the rail |
| RailDevices.TrainDetector.ModifyValue | Assets/Scripts/Structures/TrainDetector.cs:42-45 | the mode is toggled |
| RailDevices.ModifyValueTwice | Assets/Scripts/Structures/TrainDetector.cs:42-45 | toggling twice restores the mode and the reading |
| RailDevices.TrainStop.constructor | Assets/Scripts/Structures/TrainStop.cs:9 | a new stop holds trains |
| RailDevices.TrainStop.OnTrainEnter | Assets/Scripts/Structures/TrainStop.cs:28-32 | an entering train brakes while the stop holds, with the deceleration that stops it within two half segments of its current point, and is accelerated (released unless crashed) otherwise |
| RailDevices.TrainStop.WriteActuator | Assets/Scripts/Structures/TrainStop.cs:34-45 | the stop holds exactly when the input is positive; trains are released only when a holding stop sees a non-positive input (crashed ones stay braked); only the stop flag and the trains' braking flags can change |
| Trains.RoundDirection | Assets/Scripts/Trains/Train.cs:202-203 | rounding a normalised direction gives components in -1..1, keeps a unit direction as it is and maps zero to zero |
| Trains.RequiredDeceleration | Assets/Scripts/Trains/Train.cs:187-189 | the deceleration is non-negative and satisfies `2 a d = v^2` |
| Trains.Train.constructor | Assets/Scripts/Trains/Train.cs:14-29 | a new train has no carts and no path, the field defaults (max speed 1, speed 0, acceleration and deceleration 0.1), and is braking and not crashed |
| Trains.Train.Initialize | Assets/Scripts/Trains/Train.cs:78-90 | the path gets the initial tile with three points and head interpolation 2; the locomotive's `AddCart` then adds one tile behind (interpolation 4) or nothing; the path keeps its two-points-per-tile shape |
| Trains.Train.AdvancePath | Assets/Scripts/Trains/Train.cs:116-141 | the step succeeds exactly when the new tile carries the head's direction; then the head turns to the tile's other direction (never back the way it came when the two differ), the new tile and its two points are appended, the oldest tile is stepped out of and the tile count is kept; otherwise the train crashes with its path unchanged and its head at the last point |
| Trains.Train.StepOutOfTile | Assets/Scripts/Trains/Train.cs:143-150 | the tile at `index` and two points are removed, the head moves back 2, and the path shape is preserved |
| Trains.Train.Accelerate | Assets/Scripts/Trains/Train.cs:174-178 | the brake is released unless the train has crashed |
| Trains.Train.Brake | Assets/Scripts/Trains/Train.cs:180-196 | the train brakes; with a distance the deceleration is the one that stops it within that distance, v²/(2d), and without one it is the train's own deceleration |
| Trains.Train.AddCart | Assets/Scripts/Trains/Train.cs:198-229 | the tile entered is the one behind the tail; a cart is added exactly when the train has not crashed and the game allows a train there; then that tile is prepended with two points, the first being the border toward the tail direction the tile answers, the head moves forward 2 and the cart is inserted at `index` or appended; otherwise nothing changes |
| Trains.Train.Crash | Assets/Scripts/Trains/Train.cs:238-245 | speed becomes 0, and the train is braking and crashed |
| Trains.Train.DestroyTrain | Assets/Scripts/Trains/Train.cs:247-251 | every tile is stepped out of, oldest first, leaving the tile path empty and the last point |
| MaterialStock.Wrap32 | Assets/Scripts/GameManager.cs:177 | the unchecked `int` result of an exact value is a 32-bit integer congruent to it modulo 2^32, and is the value itself when that fits |
| MaterialStock.Spent | Assets/Scripts/GameManager.cs:174-180 | paying costs keeps the number of material kinds and keeps every count a 32-bit integer |
| MaterialStock.Gained | Assets/Scripts/GameManager.cs:182-188 | receiving gains keeps the number of material kinds and keeps every count a 32-bit integer |
| MaterialStock.GainAfterSpend | Assets/Scripts/GameManager.cs:174-188 | adding back what was spent restores the stock exactly, wrap-around included |
| MaterialStock.SpendAfterGain | Assets/Scripts/GameManager.cs:174-188 | spending what was added restores the stock exactly, wrap-around included |
| MaterialStock.SpendAffordable | Assets/Scripts/GameManager.cs:165-180 | when `HasMaterials` holds and no cost is negative, paying never wraps: each paid kind drops by exactly its cost and stays at least 0, and the kinds past the costs are untouched |
| GameManagement.GameManager.HasMaterials | Assets/Scripts/GameManager.cs:165-172 | true exactly when every kind that has a cost holds at least that cost |
| GameManagement.GameManager.SpendMaterials | Assets/Scripts/GameManager.cs:174-180 | the stock becomes `Spent` of the old stock: each kind with a cost loses it, wrapping, the others keep theirs |
| GameManagement.GameManager.AddMaterials | Assets/Scripts/GameManager.cs:182-188 | the stock becomes `Gained` of the old stock: each kind with a gain receives it, wrapping |
| Footprints.CellInjective | Assets/Scripts/GameManager.cs:229 | for a unit orientation two loop positions `(x, y)` reach the same tile only if they are the same, so the adds of one placement never collide |
| Footprints.FreeIsDisjoint | Assets/Scripts/GameManager.cs:217-221 | the occupancy scan succeeds exactly when no footprint tile is taken |
| Footprints.OriginCell | Assets/Scripts/GameManager.cs:229 | the tile a structure is placed on is part of its footprint |
| Footprints.SingleCell | Assets/Scripts/GameManager.cs:302 | a size-1 structure covers only its own tile, which is why chaining looks only one tile behind and one in front |
| Footprints.AddCells | Assets/Scripts/GameManager.cs:229 | the nested loops of `Add` on a free footprint give the old map plus every footprint tile mapped to the value, and no other key |
| Footprints.RemoveCells | Assets/Scripts/GameManager.cs:447 | the nested loops of `Remove` give the old map without the footprint tiles |
| Footprints.ShiftedMisses | Assets/Scripts/GameManager.cs:447 | a footprint spanned from one step right and one step up of the origin never contains the origin |
| TickSchedule.ScheduleInPhaseOrder | Assets/Scripts/GameManager.cs:74-93 | a tick starts with the channel reset and runs its phases in order, sensors, registers, processing, actuators, machines, with one step per dictionary entry and two per processor entry |
| TickSchedule.VisitsPerTile | Assets/Scripts/GameManager.cs:78-92 | each phase runs a device once per tile it holds in that phase's dictionary, and the reset runs once |
| TickSchedule.ProcessedOnTile | Assets/Scripts/GameManager.cs:86 | the processor on any tile of the processor dictionary is processed in the tick |
| TickSchedule.EnumerationExists | Assets/Scripts/GameManager.cs:80 | every dictionary can be walked by `foreach`: some order lists each key exactly once |
| TickSchedule.OneProcessRun | Assets/Scripts/GameManager.cs:86 | a processing step of a processor, or of the one feeding it, runs that processor at least once |
| TickSchedule.TwoProcessRuns | Assets/Scripts/GameManager.cs:86 | two such steps at different places in the tick run that processor at least twice |
| TickSchedule.ChainedRunsTwice | Assets/Scripts/GameManager.cs:86 | a tick with processing steps for a processor and for a different one feeding it runs the fed processor at least twice, in either order |
| GameManagement.Structure.constructor | Assets/Scripts/GameManager.cs:225-228 | the instance has the prefab's size and device, the tile and orientation it is placed with, and no trains yet |
| GameManagement.ViewAdd | Assets/Scripts/GameManager.cs:229-329 | placing on free tiles adds those tiles to exactly the dictionaries of the structure's kinds, mapped to its part of that kind, and leaves the others as they were |
| GameManagement.ViewRemove | Assets/Scripts/GameManager.cs:374-447 | freeing tiles removes exactly those tiles from every dictionary |
| GameManagement.AddPart | Assets/Scripts/GameManager.cs:231-329 | the adds to one dictionary leave it equal to that kind's view of the tile map after the placement |
| GameManagement.RemovePart | Assets/Scripts/GameManager.cs:374-444 | the removes from one dictionary leave it equal to that kind's view of the tile map after the removal |
| GameManagement.CoversAdded | Assets/Scripts/GameManager.cs:217-229 | after a placement on a free footprint, every tile still maps to a structure whose footprint holds it, with its orientation |
| GameManagement.FrontIsItself | Assets/Scripts/GameManager.cs:229-316 | once a processor of size two or more has its footprint recorded, the aligned processor the chaining finds in front of its origin tile is the processor itself |
| GameManagement.PortsApartAdded | Assets/Scripts/GameManager.cs:225-229 | placing a structure with new ports keeps every port owned by one placed structure only |
| GameManagement.OneTileEach | Assets/Scripts/GameManager.cs:297 | a processor is placed on exactly one tile |
| GameManagement.NeighbourPorts | Assets/Scripts/GameManager.cs:301-318 | the processors behind and in front of a tile are different, and the ports their chain links take out of the network belong to them alone |
| GameManagement.ChainsAround | Assets/Scripts/GameManager.cs:301-318 | after a new processor is placed, a placed processor is chained to it exactly when they are neighbours in line facing the same way; otherwise it keeps what it was chained to |
| GameManagement.CoversRemoved | Assets/Scripts/GameManager.cs:447 | freeing a structure's footprint leaves every other structure covered and none of the removed structure's tiles |
| GameManagement.PortsApartRemoved | Assets/Scripts/GameManager.cs:447 | freeing tiles keeps the remaining structures' ports apart |
| GameManagement.AlignedAround | Assets/Scripts/GameManager.cs:424-434 | a processor feeds, or is fed by, the removed processor exactly when they are in line; once the tile is freed it is in line with nothing there and with the same as before elsewhere |
| GameManagement.FreedAsWritten | Assets/Scripts/GameManager.cs:364-447 | removal as written, which frees the square spanned from the clicked tile: only entries go, the ones left keep their values, and the clicked tile itself is freed whenever the structure has a size |
| GameManagement.FreedAtOrigin | Assets/Scripts/GameManager.cs:447 | clicking the origin tile, which is what every caller does, frees exactly the structure's footprint |
| GameManagement.FreedAsWrittenLeavesTiles | Assets/Scripts/GameManager.cs:447 | clicking the tile one step right and one step up of a size 2 or larger structure's origin leaves the origin mapped to the removed structure |
| GameManagement.FirstOther | Assets/Scripts/GameManager.cs:557 | the loop finds the first train orientation unlike the given one, or finds none exactly when all are alike |
| GameManagement.GameManager.constructor | Assets/Scripts/GameManager.cs:18-30 | a new manager is at tick 0 with zero of every material, an empty tile map and an empty signal network |
| GameManagement.GameManager.AddStructure | Assets/Scripts/GameManager.cs:215-338 | placing succeeds exactly when the tile and the whole footprint are free; a failed placement changes nothing; a success maps every footprint tile to the structure, keeps the map and the network consistent, and chains a processor to the in-line processors behind and in front that face the same way |
| GameManagement.GameManager.PlaceDevice | Assets/Scripts/GameManager.cs:229-294 | every kind but a processor: the footprint joins the tile map and the manager stays consistent |
| GameManagement.GameManager.Join | Assets/Scripts/GameManager.cs:320-329 | a device's `Initialize` adds exactly its ports to the network and leaves it well formed, with the device attached |
| GameManagement.GameManager.PlaceProcessor | Assets/Scripts/GameManager.cs:295-319 | the processor's tile joins the map, it is chained to the aligned processor behind and the one in front, and the manager stays consistent |
| GameManagement.GameManager.Record | Assets/Scripts/GameManager.cs:229-327 | the tile map gains the footprint and every dictionary stays the view of its kind |
| GameManagement.GameManager.LinkableAt | Assets/Scripts/GameManager.cs:301-318 | on a consistent map, the neighbours of a free tile can always be chained to a new processor: their chain ends are free and in the network |
| GameManagement.GameManager.ConnectProcessor | Assets/Scripts/GameManager.cs:298-318 | after `Initialize` and the two chain calls the processor has a one-tick register and is linked both ways to its neighbours; no other port, processor or machine changes |
| GameManagement.GameManager.ChainInput | Assets/Scripts/GameManager.cs:301-310 | with a processor behind, both link their ends and take them out of the network; without one nothing changes |
| GameManagement.GameManager.ChainOutput | Assets/Scripts/GameManager.cs:311-318 | with a processor in front, both link their ends and take them out of the network; without one nothing changes |
| GameManagement.GameManager.DevicePlaced | Assets/Scripts/GameManager.cs:229-294 | after a non-processor is placed and joined, the manager is consistent again |
| GameManagement.GameManager.ProcessorPlaced | Assets/Scripts/GameManager.cs:295-319 | after a processor is connected and chained, the network agrees with the map that has it |
| GameManagement.GameManager.RemovePorts | Assets/Scripts/GameManager.cs:431 | removing each port in turn takes exactly those ports out of the network, which stays well formed |
| GameManagement.GameManager.RemoveStructure | Assets/Scripts/GameManager.cs:361-453 | an empty tile yields `NoStructure`, and a rail with trains yields `Refused`, both changing nothing; otherwise the whole footprint is freed, every port of the device leaves the network, a machine has dropped its inventory, a processor is unchained with its neighbours' ends rejoined, and the manager stays consistent |
| GameManagement.GameManager.RemoveDevice | Assets/Scripts/GameManager.cs:369-445 | any kind but a processor: its footprint is freed and its device released, and the manager stays consistent |
| GameManagement.GameManager.Detach | Assets/Scripts/GameManager.cs:371-443 | a machine drops its inventory, then exactly the device's ports leave the network, which stays well formed |
| GameManagement.GameManager.RemoveProcessor | Assets/Scripts/GameManager.cs:424-435 | the processor's tile is freed, it is unchained from both neighbours and all its ports leave the network |
| GameManagement.GameManager.DisconnectAt | Assets/Scripts/GameManager.cs:426-432 | after the network side of a processor's removal, the network agrees with the map without that processor |
| GameManagement.GameManager.Forget | Assets/Scripts/GameManager.cs:374-447 | the map removes free exactly the footprint and keep every dictionary the view of its kind |
| GameManagement.GameManager.DeviceRemoved | Assets/Scripts/GameManager.cs:369-445 | once a non-processor device's ports are out of the network, the network agrees with the map without its footprint |
| GameManagement.GameManager.ProcessorRemoved | Assets/Scripts/GameManager.cs:424-434 | once a processor is unchained and its ports are out of the network, the network agrees with the map without it |
| GameManagement.GameManager.DetachableAt | Assets/Scripts/GameManager.cs:426-432 | on a consistent map every placed processor's links can be undone: its neighbours are distinct, in line and linked back |
| GameManagement.GameManager.DisconnectProcessor | Assets/Scripts/GameManager.cs:428-432 | after `Unchain`, `UnchainOutput` and the port removals, the processor is chained to nothing, every port of it is out of the network, and the ends on its neighbours are back in |
| GameManagement.GameManager.Unlink | Assets/Scripts/GameManager.cs:428-429 | after both unchain calls the processor and its neighbours are unlinked, and every end of both links is back in the network |
| GameManagement.GameManager.UnchainInput | Assets/Scripts/GameManager.cs:428 | an input-chained processor and the one behind it are unlinked, and both ends rejoin the network |
| GameManagement.GameManager.UnchainOutput | Assets/Scripts/GameManager.cs:429 | an output-chained processor and the one in front are unlinked, and both ends rejoin the network |
| GameManagement.GameManager.GetNextTrainOrientation | Assets/Scripts/GameManager.cs:551-563 | zero off the rails or on a non-rail; on a dynamic rail, the reverse of the first train orientation unlike the incoming one, or zero if all are alike; on a sensor or actuator rail, what that rail's own rule gives |
| GameManagement.GameManager.FixedUpdate | Assets/Scripts/GameManager.cs:68-93 | one update runs exactly `Schedule` over the current dictionaries, starting with the reset and in phase order, and the `ulong` tick counter goes up by one modulo 2^64 |
| GameManagement.GameManager.ChainedProcessedTwice | Assets/Scripts/GameManager.cs:83-86 | a placed processor feeding a chained one differs from it and both have a processing step; since the feeder's `Process` runs on into the fed one, the fed one is processed at least twice in the tick |
| Recipes.CountZero | Assets/Scripts/Inventory/RecipeBook.cs:59-63 | a channel counts no resource of a material exactly when none of its slots holds one; empty slots never count |
| Recipes.CountWithout | Assets/Scripts/Structures/RecipeMachine.cs:104 | emptying a slot lowers the channel's count of a material by one when the slot held it and leaves it unchanged otherwise |
| Recipes.FirstValidFrom | Assets/Scripts/Inventory/RecipeBook.cs:53-72 | scanning from an index gives the first valid recipe at or after it, or -1 exactly when none from there on is valid |
| Recipes.FirstValid | Assets/Scripts/Inventory/RecipeBook.cs:49-73 | the answer is -1 or an index into the book; a non-negative answer is valid and no earlier recipe is; -1 exactly when no recipe is valid |
| Recipes.NoIngredientsValid | Assets/Scripts/Inventory/RecipeBook.cs:56-70 | a recipe without ingredients is always valid, so the scan stops at it or earlier |
| Recipes.CountChannel | Assets/Scripts/Inventory/RecipeBook.cs:59-63 | the inner loop counts exactly the slots holding a resource of the ingredient's material |
| Recipes.GetFirstValidRecipe | Assets/Scripts/Inventory/RecipeBook.cs:49-73 | for any book, the nested loops with their early `break` and `return` answer `Scan` of the slots' contents: the first recipe with every ingredient present, -1, or the exception of a channel that does not exist |
| Recipes.CheckFrom | Assets/Scripts/Inventory/RecipeBook.cs:57-69 | the ingredient loop from an ingredient on: all present only when every later channel exists and holds the ingredient's amount; missing only at a present channel that falls short; a throw only where a channel does not exist |
| Recipes.CheckIsValid | Assets/Scripts/Inventory/RecipeBook.cs:57-70 | for a recipe whose channels all exist, the ingredient loop never throws and accepts the recipe exactly when it is valid |
| Recipes.Scan | Assets/Scripts/Inventory/RecipeBook.cs:53-72 | the answer is -1 or an index from the start on; the recipe found is valid with all its channels existing, and every recipe before it was missing an ingredient; the scan throws exactly when it reaches a recipe with a channel that does not exist after only missing ones |
| Recipes.ScanIsFirstValid | Assets/Scripts/Inventory/RecipeBook.cs:49-73 | over a book whose channels all exist the scan never throws and answers `FirstValidFrom` |
| Recipes.ScanStopsAtAnswer | Assets/Scripts/Inventory/RecipeBook.cs:70 | the recipes after the answer are never looked at: replacing them, even with recipes naming channels that do not exist, keeps the answer |
| Recipes.Taken | Assets/Scripts/Structures/RecipeMachine.cs:98-106 | every resource an ingredient takes has the ingredient's material |
| Recipes.AfterTakeSlots | Assets/Scripts/Structures/RecipeMachine.cs:98-106 | after an ingredient's take, every slot is as it was or emptied, and only slots holding the material are emptied |
| Recipes.TakenAmount | Assets/Scripts/Structures/RecipeMachine.cs:97-98 | an ingredient takes its amount, or every matching resource when there are fewer, and nothing when the amount is not positive |
| Recipes.AfterTakeCount | Assets/Scripts/Structures/RecipeMachine.cs:98-105 | the channel keeps exactly the matching resources that were not taken |
| Recipes.TakeConserves | Assets/Scripts/Structures/RecipeMachine.cs:103-104 | one take only moves resources: what the slots keep plus what was taken is what they held |
| Recipes.TakeSaturated | Assets/Scripts/Structures/RecipeMachine.cs:98 | once the amount is reached, the scan takes nothing more and leaves the remaining slots alone |
| Recipes.TakeAllMaterials | Assets/Scripts/Structures/RecipeMachine.cs:94-107 | everything a recipe's ingredients take has the material of one of them |
| Recipes.TakeAllConserves | Assets/Scripts/Structures/RecipeMachine.cs:94-107 | starting a recipe loses and duplicates no resource: the slots plus the ingredient list hold what the slots held before |
| RecipeMachines.ProducedFromProducts | Assets/Scripts/Structures/RecipeMachine.cs:119-127 | everything an output channel receives is the material of a product of that channel with a positive amount |
| RecipeMachines.ProducedNothing | Assets/Scripts/Structures/RecipeMachine.cs:119-127 | a channel that no product with a positive amount names receives nothing |
| RecipeMachines.FirstMisfitFrom | Assets/Scripts/Structures/RecipeMachine.cs:119-127 | the first product from an index on that would make something on an output channel that does not exist (where the source throws), every product before it fitting; the list's length when all fit |
| RecipeMachines.FitMakesAll | Assets/Scripts/Structures/RecipeMachine.cs:119-127 | a recipe whose product channels all exist finishes without throwing and makes every product |
| RecipeMachines.FitFrom | Assets/Scripts/Structures/RecipeMachine.cs:119-127 | from any product on, products whose channels all exist leave nothing to throw on |
| RecipeMachines.RecipeMachine.constructor | Assets/Scripts/Structures/RecipeMachine.cs:13-29 | for any recipe book, a new machine is idle at tick 0, holds no ingredient and has one empty product list per output |
| RecipeMachines.RecipeMachine.ProcessMachine | Assets/Scripts/Structures/RecipeMachine.cs:60-82 | one tick as a whole. A running recipe that is not done gains one tick and keeps its ingredients and slots while every product list goes through the output step. A finished recipe appends `Produced` of its products; when one names a missing output channel it throws before any output, with the machine still on that recipe. Otherwise the lists, with any new products, go through the output step. If one is still non-empty the machine stays idle with its slots and ingredients as they were; if not, it starts as `StartedFrom` says, throwing exactly when `Scan` does |
| RecipeMachines.RecipeMachine.StartConserves | Assets/Scripts/Structures/RecipeMachine.cs:84-109 | a start, whatever the scan decides, loses and duplicates no resource: the slots and the ingredient list together hold what they held |
| RecipeMachines.RecipeMachine.Advance | Assets/Scripts/Structures/RecipeMachine.cs:62-67 | a running recipe counts a tick. Once the count reaches its processing ticks it finishes: the ingredients are consumed, each list gains new resources whose materials are `Produced` by the products before the first misfit, and it throws exactly when there is a misfit, staying on the recipe. Without a finish nothing else changes; the slots never change |
| RecipeMachines.RecipeMachine.StartWhenEmpty | Assets/Scripts/Structures/RecipeMachine.cs:76-81 | an idle machine with a non-empty product list changes nothing; otherwise it throws exactly when `Scan` does and is left as `StartedFrom` says: unchanged when there is no recipe to start, else on the recipe found from tick 0 with `TakeAll` of its ingredients moved from the slots |
| RecipeMachines.RecipeMachine.OutputAll | Assets/Scripts/Structures/RecipeMachine.cs:69-74 | every product list is offered to its output channel, except empty lists, which stay empty |
| RecipeMachines.RecipeMachine.StartRecipe | Assets/Scripts/Structures/RecipeMachine.cs:84-109 | it throws exactly when `Scan` does and leaves the state `StartedFrom` describes: nothing changes when the scan throws or finds no recipe; otherwise the recipe found runs from tick 0, its ingredients move from the slots to the ingredient list in order, and the slots are left as `TakeAll` says |
| RecipeMachines.RecipeMachine.Start | Assets/Scripts/Structures/RecipeMachine.cs:90-107 | the chosen recipe, whose channels exist, runs from tick 0 and its ingredients are taken from the slots |
| RecipeMachines.RecipeMachine.TakeIngredients | Assets/Scripts/Structures/RecipeMachine.cs:94-107 | the ingredients, each in turn taking from the slots the previous ones left, move exactly `TakeAll` of the slots |
| RecipeMachines.RecipeMachine.TakeIngredient | Assets/Scripts/Structures/RecipeMachine.cs:97-106 | one ingredient's loop appends `Taken` of its channel to the ingredient list and leaves the channel as `AfterTake` |
| RecipeMachines.RecipeMachine.TakeSlot | Assets/Scripts/Structures/RecipeMachine.cs:100-105 | one slot of the scan is taken, and the count goes up by one, exactly when it holds the material and the amount is not yet reached |
| RecipeMachines.RecipeMachine.FinishRecipe | Assets/Scripts/Structures/RecipeMachine.cs:111-131 | the ingredients are consumed; it throws exactly when a product names an output channel that does not exist, and then the machine stays on the recipe; the output lists gain new resources whose materials are `Produced` by the products before the first such one (all of them when none throws), and without a throw the machine is idle |
| RecipeMachines.RecipeMachine.AddAllProducts | Assets/Scripts/Structures/RecipeMachine.cs:119-128 | every product in turn appends to its channel until the first one on a missing channel, where it throws; each channel gains exactly the materials `Produced` names for the products made, all of them new resources |
| RecipeMachines.RecipeMachine.AddNext | Assets/Scripts/Structures/RecipeMachine.cs:119-127 | one more product made extends each channel's new resources from `Produced` of the products before it to `Produced` including it |
| RecipeMachines.RecipeMachine.AddProducts | Assets/Scripts/Structures/RecipeMachine.cs:122-127 | one product appends `amount` new resources of its material to its own channel only, and nothing when the amount is not positive |
| RecipeMachines.RecipeMachine.DropInventory | Assets/Scripts/Structures/RecipeMachine.cs:133-142 | the ingredient list and every product list are empty afterwards |
| RecipeMachines.TakeStep | Assets/Scripts/Structures/RecipeMachine.cs:98-105 | one more slot scanned is taken exactly when fewer than the amount were taken so far and it holds the material; a taken slot is emptied |
| PortGraphs.ChannelIsComponent | Assets/Scripts/Signals/Signals.cs:27-107 | under the network invariant, two ports that hold a channel hold the same one exactly when they are in the same connected component |
| PortGraphs.SameComponentSameChannel | Assets/Scripts/Signals/Signals.cs:95-106 | ports joined by a path of wires share one channel |
| PortGraphs.ReachableAfterRemoval | Assets/Scripts/Signals/Signals.cs:52-60 | removing one wire splits a component into at most two parts: a port still reaches what it reached, or it reaches the wire's source |
| PortGraphs.FloodIsolated | Assets/Scripts/Signals/Signals.cs:83-88 | flooding from a port without wires changes that port only, as the leaf short-cut does |
| PortGraphs.AddBarePortKeeps | Assets/Scripts/Signals/Signals.cs:14-18 | adding a new port without a channel keeps the network invariant |
| PortGraphs.AddChannelledPortKeeps | Assets/Scripts/Components.cs:13-18 | adding a new port with its own tracked fresh channel keeps the legacy invariant |
| PortGraphs.FloodConnectKeeps | Assets/Scripts/Signals/Signals.cs:29-30 | flooding one side's component with the other side's channel and adding the wire keeps the invariant parts both networks share |
| PortGraphs.FreshPairKeeps | Assets/Scripts/Signals/Signals.cs:31-35 | two bare ports joined by a wire, both given one fresh tracked channel, keep the network invariant |
| PortGraphs.SplitKeeps | Assets/Scripts/Signals/Signals.cs:57-60 | after a wire is removed, flooding a fresh tracked channel from its source keeps the invariant parts both networks share |
| PortGraphs.DropOneEndKeeps | Assets/Scripts/Signals/Signals.cs:61-68 | after a wire is removed, the end left bare losing its channel keeps the network invariant |
| PortGraphs.DropBothEndsKeeps | Assets/Scripts/Signals/Signals.cs:69-73 | after a wire is removed with both ends bare, both losing their channel keeps the network invariant, and no other port held that channel |
| PortGraphs.RemoveIsolatedKeeps | Assets/Scripts/Signals/Signals.cs:23-24 | a port without wires leaving the network, its channel dropped once from the tracked list, keeps the invariant |
| PortGraphs.ConnectChannelled | Assets/Scripts/Signals/Signals.cs:29-30 | connecting where one end has a channel gives both components that channel and keeps the network invariant |
| PortGraphs.ConnectFresh | Assets/Scripts/Signals/Signals.cs:31-35 | connecting two bare ports gives both the fresh channel, changes nothing else and keeps the network invariant |
| PortGraphs.DisconnectSplit | Assets/Scripts/Signals/Signals.cs:57-60 | disconnecting a wire whose ends both keep wires keeps the invariant and changes only ports of the source's old component |
| PortGraphs.DisconnectDropOne | Assets/Scripts/Signals/Signals.cs:61-68 | disconnecting the last wire of one end only keeps the invariant, and only that end changes |
| PortGraphs.DisconnectDropBoth | Assets/Scripts/Signals/Signals.cs:69-73 | disconnecting the only wire of both ends keeps the invariant, and only the two ends change |
| PortGraphs.ChangedWithinStep | Assets/Scripts/Signals/Signals.cs:22 | disconnecting a port's wires one by one changes only ports that the port reached before the first |
| Signals.Channel.constructor | Assets/Scripts/Signals/Signals.cs:117 | a new channel holds 0 |
| Signals.Channel.Reset | Assets/Scripts/Signals/Signals.cs:119-122 | the channel holds 0 afterwards |
| Signals.Channel.Write | Assets/Scripts/Signals/Signals.cs:124-127 | the stored value never goes down, covers the written one, and is one of the two |
| Signals.Channel.Read | Assets/Scripts/Signals/Signals.cs:129-132 | the getter returns the channel's current value |
| Signals.Port.constructor | Assets/Scripts/Signals/Port.cs:8-10 | a new port is in no network and has no channel |
| Signals.Port.IsConnected | Assets/Scripts/Signals/Port.cs:10 | a port is connected exactly when it has a channel |
| Signals.Port.AddToNetwork | Assets/Scripts/Signals/Port.cs:12-17 | a port already in a network is refused with nothing changed; otherwise the port joins exactly this network, a new vertex without a channel, and no wire or tracked channel changes |
| Signals.Port.RemoveFromNetwork | Assets/Scripts/Signals/Port.cs:19-23 | the port leaves its network, which stays valid, loses exactly that vertex and keeps no wire on it |
| Signals.Port.Write | Assets/Scripts/Signals/Port.cs:25-29 | with a channel, the channel's value never goes down and covers the written one; without one nothing changes |
| Signals.Port.Read | Assets/Scripts/Signals/Port.cs:31-34 | a port without a channel reads 0 |
| Signals.Port.Reset | Assets/Scripts/Signals/Port.cs:36-40 | the port reads 0 afterwards |
| Signals.Port.CompareTo | Assets/Scripts/Signals/Port.cs:42-45 | the sign of the comparison is the order of the instance ids |
| Signals.PortNetworkGraph.OrderedEdge | Assets/Scripts/Signals/Signals.cs:37-39 | the stored edge joins the two ports with the lower-id one as source, `port1` on a tie |
| Signals.PortNetworkGraph.constructor | Assets/Scripts/Signals/Signals.cs:10-12 | a new network has no port, no wire and no tracked channel |
| Signals.PortNetworkGraph.AddPort | Assets/Scripts/Signals/Signals.cs:14-18 | the port becomes a vertex; a new one starts without a channel, one already there keeps its channel; the invariant holds |
| Signals.PortNetworkGraph.RemovePort | Assets/Scripts/Signals/Signals.cs:20-25 | the vertex and exactly the wires on it are removed, other wires stay, only ports of its component change channel, and the invariant holds |
| Signals.PortNetworkGraph.DisconnectAll | Assets/Scripts/Signals/Signals.cs:22 | afterwards the port has no wire, exactly its wires are gone, and only ports of its component changed channel |
| Signals.PortNetworkGraph.ConnectWire | Assets/Scripts/Signals/Signals.cs:27-43 | the wire is added as an ordered edge and both components end on one channel, `port1`'s if it had one, else `port2`'s, else a fresh one, with the tracked list updated as each branch does; the invariant holds |
| Signals.PortNetworkGraph.ShareChannel | Assets/Scripts/Signals/Signals.cs:29-30 | the component of the port without priority takes the other port's channel, and its old channel leaves the tracked list once while the kept one is added |
| Signals.PortNetworkGraph.ShareNewChannel | Assets/Scripts/Signals/Signals.cs:31-35 | two bare ports both take one fresh channel, tracked once per flood |
| Signals.PortNetworkGraph.DisconnectWire | Assets/Scripts/Signals/Signals.cs:45-76 | an unknown wire changes nothing; otherwise the wire is gone, both ends still wired floods the source's side with a fresh tracked channel, one bare end loses its channel, and two bare ends lose theirs with the source's old channel dropped once; only the source's old component changes, and the invariant holds |
| Signals.PortNetworkGraph.SplitChannel | Assets/Scripts/Signals/Signals.cs:57-60 | with both ends still wired, the source's side is flooded with a fresh channel that joins the tracked list |
| Signals.PortNetworkGraph.DropChannel | Assets/Scripts/Signals/Signals.cs:61-68 | with one end left bare, that end alone loses its channel and the tracked list stays |
| Signals.PortNetworkGraph.DropBothChannels | Assets/Scripts/Signals/Signals.cs:69-73 | with both ends bare, both lose their channel and the source's old channel leaves the tracked list once |
| Signals.PortNetworkGraph.AssignSignalChannelBFS | Assets/Scripts/Signals/Signals.cs:78-107 | the new channel lands on exactly the ports reachable from the start port and on no other; the start's old channel leaves the tracked list once when asked, and a non-null new one joins it |
| Signals.PortNetworkGraph.Flood | Assets/Scripts/Signals/Signals.cs:83-106 | a port without wires takes the channel alone; otherwise exactly the ports reachable from it take it |
| Signals.PortNetworkGraph.BreadthFirst | Assets/Scripts/Signals/Signals.cs:90-106 | the queue loop reaches the start port and a set closed under adjacency that lies inside every closed set holding the start: the start's component |
| Signals.PortNetworkGraph.Dequeue | Assets/Scripts/Signals/Signals.cs:97-105 | one turn marks the head reached, keeps the search state, and either visits a new port or shortens the queue |
| Signals.PortNetworkGraph.EnqueueNew | Assets/Scripts/Signals/Signals.cs:100-105 | exactly the unvisited neighbours are queued and marked visited |
| Signals.PortNetworkGraph.ResetSignalChannels | Assets/Scripts/Signals/Signals.cs:109-112 | every tracked channel holds 0, so under the invariant every port of the network reads 0 |
| Structures.SignalChannel.constructor | Assets/Scripts/Structures/Structures.cs:115 | a new channel holds 0 |
| Structures.SignalChannel.Reset | Assets/Scripts/Structures/Structures.cs:117-120 | the channel holds 0 afterwards |
| Structures.SignalChannel.Write | Assets/Scripts/Structures/Structures.cs:122-125 | the stored value never goes down, covers the written one, and is one of the two |
| Structures.SignalChannel.Read | Assets/Scripts/Structures/Structures.cs:127-130 | the getter returns the channel's current value |
| Structures.Port.constructor | Assets/Scripts/Structures/Port.cs:8-10 | a new port is in no network and has no channel |
| Structures.Port.IsConnected | Assets/Scripts/Structures/Port.cs:10 | a port is connected exactly when it has a channel |
| Structures.Port.AddToNetwork | Assets/Scripts/Structures/Port.cs:12-17 | a port already in a network is refused with nothing changed; otherwise the port joins exactly this network, a new vertex without a channel, and no wire or tracked channel changes |
| Structures.Port.RemoveFromNetwork | Assets/Scripts/Structures/Port.cs:19-23 | the port leaves its network, which stays valid, loses exactly that vertex and keeps no wire on it |
| Structures.Port.Write | Assets/Scripts/Structures/Port.cs:25-29 | with a channel, the channel's value never goes down and covers the written one; without one nothing changes |
| Structures.Port.Read | Assets/Scripts/Structures/Port.cs:31-34 | a port without a channel reads 0 |
| Structures.Port.Reset | Assets/Scripts/Structures/Port.cs:36-40 | the port reads 0 afterwards |
| Structures.Port.CompareTo | Assets/Scripts/Structures/Port.cs:42-45 | the sign of the comparison is the order of the instance ids |
| Structures.SignalNetworkGraph.OrderedEdge | Assets/Scripts/Structures/Structures.cs:37-39 | the stored edge joins the two ports with the lower-id one as source, `port1` on a tie |
| Structures.SignalNetworkGraph.constructor | Assets/Scripts/Structures/Structures.cs:10-12 | a new network has no port, no wire and no tracked channel |
| Structures.SignalNetworkGraph.AddPort | Assets/Scripts/Structures/Structures.cs:14-18 | the port becomes a vertex; a new one starts without a channel, one already there keeps its channel; the invariant holds |
| Structures.SignalNetworkGraph.RemovePort | Assets/Scripts/Structures/Structures.cs:20-25 | the vertex and exactly the wires on it are removed, other wires stay, only ports of its component change channel, and the invariant holds |
| Structures.SignalNetworkGraph.RemovePortAsWritten | Assets/Scripts/Structures/Structures.cs:20-25 | as written the enumeration throws exactly when the port has a wire; then only one of its wires is gone and the port stays a vertex; a port without wires is removed with the wires untouched |
| Structures.SignalNetworkGraph.DisconnectAll | Assets/Scripts/Structures/Structures.cs:22 | afterwards the port has no wire, exactly its wires are gone, and only ports of its component changed channel |
| Structures.SignalNetworkGraph.ConnectWire | Assets/Scripts/Structures/Structures.cs:27-43 | the wire is added as an ordered edge and both components end on one channel, `port1`'s if it had one, else `port2`'s, else a fresh one, with the tracked list updated as each branch does; the invariant holds |
| Structures.SignalNetworkGraph.ShareChannel | Assets/Scripts/Structures/Structures.cs:29-30 | the component of the port without priority takes the other port's channel, and its old channel leaves the tracked list once while the kept one is added |
| Structures.SignalNetworkGraph.ShareNewChannel | Assets/Scripts/Structures/Structures.cs:31-35 | two bare ports both take one fresh channel, tracked once per flood |
| Structures.SignalNetworkGraph.DisconnectWire | Assets/Scripts/Structures/Structures.cs:45-74 | an unknown wire changes nothing; otherwise the wire is gone, both ends still wired floods the source's side with a fresh tracked channel, one bare end loses its channel, and two bare ends lose theirs with the source's old channel dropped once; only the source's old component changes, and the invariant holds |
| Structures.SignalNetworkGraph.SplitChannel | Assets/Scripts/Structures/Structures.cs:57-60 | with both ends still wired, the source's side is flooded with a fresh channel that joins the tracked list |
| Structures.SignalNetworkGraph.DropChannel | Assets/Scripts/Structures/Structures.cs:61-68 | with one end left bare, that end alone loses its channel and the tracked list stays |
| Structures.SignalNetworkGraph.DropBothChannels | Assets/Scripts/Structures/Structures.cs:69-73 | with both ends bare, both lose their channel and the source's old channel leaves the tracked list once |
| Structures.SignalNetworkGraph.AssignSignalChannelBFS | Assets/Scripts/Structures/Structures.cs:76-105 | the new channel lands on exactly the ports reachable from the start port and on no other; the start's old channel leaves the tracked list once when asked, and a non-null new one joins it |
| Structures.SignalNetworkGraph.Flood | Assets/Scripts/Structures/Structures.cs:81-104 | a port without wires takes the channel alone; otherwise exactly the ports reachable from it take it |
| Structures.SignalNetworkGraph.BreadthFirst | Assets/Scripts/Structures/Structures.cs:88-104 | the queue loop reaches the start port and a set closed under adjacency that lies inside every closed set holding the start: the start's component |
| Structures.SignalNetworkGraph.Dequeue | Assets/Scripts/Structures/Structures.cs:95-103 | one turn marks the head reached, keeps the search state, and either visits a new port or shortens the queue |
| Structures.SignalNetworkGraph.EnqueueNew | Assets/Scripts/Structures/Structures.cs:98-103 | exactly the unvisited neighbours are queued and marked visited |
| Structures.SignalNetworkGraph.ResetSignalChannels | Assets/Scripts/Structures/Structures.cs:107-110 | every tracked channel holds 0, so under the invariant every port of the network reads 0 |
| Structures.ReadInputs | Assets/Scripts/Structures/Structures.cs:227-228 | the signals array holds every input port's value in port order, 0 for a port without a channel |
| Structures.AddAllToNetwork | Assets/Scripts/Structures/Structures.cs:167 | each port joins the network in turn: the network gains exactly these ports and keeps its wires and tracked channels |
| Structures.Sensor.constructor | Assets/Scripts/Structures/Structures.cs:135-137 | a new sensor has its kind and output port and is in no network |
| Structures.Sensor.Initialize | Assets/Scripts/Structures/Structures.cs:139-143 | the sensor and its output port join the network, which gains exactly that port |
| Structures.Sensor.ReadSensor | Assets/Scripts/Structures/Constant.cs:8-11 | a constant source reads its own value and the base sensor 0, whatever the network holds |
| Structures.Sensor.Read | Assets/Scripts/Structures/Structures.cs:145-148 | the output channel, if any, max-combines the reading, so it holds at least the reading and a second read in the tick changes nothing |
| Structures.Actuator.constructor | Assets/Scripts/Structures/Structures.cs:254-255 | a new actuator has its input ports and is in no network |
| Structures.Actuator.Initialize | Assets/Scripts/Structures/Structures.cs:258-262 | the actuator and every input port join the network, which gains exactly those ports |
| Structures.Actuator.Write | Assets/Scripts/Structures/Structures.cs:264-269 | the device is handed every input port's value in port order, 0 for an unconnected one |
| Structures.EmittedIs | Assets/Scripts/Structures/Structures.cs:242-248 | on tick `t` an unchained register writes entry `t` of the queue, then the value computed before the first tick, then the computed values in order |
| Structures.DelayTicks | Assets/Scripts/Structures/Structures.cs:172-182 | a register built with delay `d` brings the value computed on tick `k` to the output port on tick `k + d + 1` |
| Structures.DelayOneTick | Assets/Scripts/Structures/Structures.cs:246-247 | with the default delay of 1, a 5 computed on tick 0 reaches the port on tick 2 and zeros before it |
| Structures.Processor.constructor | Assets/Scripts/Structures/Structures.cs:156-162 | a new processor has its gate and ports, no network, an empty queue, a processed signal of 0 and no chain links |
| Structures.Processor.Initialize | Assets/Scripts/Structures/Structures.cs:164-170 | every input port and then the output port join the network, which gains exactly those ports, and a valid delay gives a queue of that many zeros |
| Structures.Processor.SetOutputDelay | Assets/Scripts/Structures/Structures.cs:172-182 | a delay below 1 keeps the queue; otherwise the queue is exactly `delayTicks` zeros |
| Structures.Processor.Chain | Assets/Scripts/Structures/Structures.cs:184-196 | an input already chained is refused with nothing changed; otherwise the two processors are linked both ways and the first input and the upstream output leave the network and share a fresh channel the network does not track |
| Structures.Processor.IsInputChained | Assets/Scripts/Structures/Structures.cs:215-218 | the input is chained exactly when there is an upstream processor |
| Structures.Processor.IsOutputChained | Assets/Scripts/Structures/Structures.cs:220-223 | the output is chained exactly when there is a downstream processor |
| Structures.Processor.Splice | Assets/Scripts/Structures/Structures.cs:191-195 | both ports leave the network with every wire on them and then share one fresh untracked channel |
| Structures.Processor.Unchain | Assets/Scripts/Structures/Structures.cs:198-207 | an input not chained is refused with nothing changed; otherwise both link ports join the network again without a channel, the network keeps its wires and tracked channels, and both links are cleared |
| Structures.Processor.UnchainOutput | Assets/Scripts/Structures/Structures.cs:209-213 | it succeeds exactly when the output is chained and the processor downstream is input-chained, and then that link is undone as `Unchain` does |
| Structures.Processor.AdvanceOutputQueue | Assets/Scripts/Structures/Structures.cs:242-248 | unchained, the oldest queued signal is max-combined into the output channel and the last computed signal joins the back of the queue; chained, nothing changes; the queue keeps its length |
| Structures.Processor.ProcessSignal | Assets/Scripts/Structures/Structures.cs:240 | the processor's gate is applied to the input signals, with the connected inputs marked |
| Structures.Processor.Recompute | Assets/Scripts/Structures/Structures.cs:227-229 | the processed signal is the gate over the values the input ports hold |
| Structures.Processor.Process | Assets/Scripts/Structures/Structures.cs:225-238 | the processed signal is the gate over this tick's inputs, and down the chain each link holds its upstream signal (0 if negative) and each downstream processor computed its gate over that value and its other inputs |
| Structures.SelfChainUnrunnable | Assets/Scripts/Structures/Structures.cs:225-238 | a processor chained to its own output has no finite chain for `Process` to run down |
| Structures.Processor.PassOn | Assets/Scripts/Structures/Structures.cs:232-237 | sending down the link and running the next processor leaves this processor's signal as it is and establishes the chain's outcome |
| Structures.Processor.SendToChained | Assets/Scripts/Structures/Structures.cs:234-235 | after the reset and the write the link reads the new signal, or 0 if it is negative, so the next processor's first input reads it and its other inputs are unchanged |
| Structures.DownstreamAt | Assets/Scripts/Structures/Structures.cs:231-237 | at every link of a processed chain the upstream output reads its signal (0 if negative) and the downstream signal is its gate over that value and its other inputs |
| Components.TrackedAfterRemove | Assets/Scripts/Components.cs:23 | removing one copy of a channel from the tracked list keeps every other channel tracked |
| Components.FloodKeepsChannelled | Assets/Scripts/Components.cs:46-68 | flooding with a channel leaves every port of the legacy network with a channel |
| Components.SignalChannel.constructor | Assets/Scripts/Components.cs:78 | a new channel holds 0 |
| Components.SignalChannel.Reset | Assets/Scripts/Components.cs:80-83 | the channel holds 0 afterwards |
| Components.SignalChannel.Write | Assets/Scripts/Components.cs:85-88 | the channel holds the larger of its value and the written one |
| Components.SignalChannel.Read | Assets/Scripts/Components.cs:90-93 | the getter returns the channel's current value |
| Components.Port.constructor | Assets/Scripts/Components.cs:102-106 | a new port joins its network at once as a new vertex with a fresh channel of its own, which the network tracks |
| Components.Port.Connect | Assets/Scripts/Components.cs:108-111 | the port is a vertex afterwards; a new one gets a fresh tracked channel and one already there keeps its channel |
| Components.Port.Disconnect | Assets/Scripts/Components.cs:113-116 | the port leaves the network with exactly its wires and keeps a channel |
| Components.Port.Write | Assets/Scripts/Components.cs:118-121 | the channel holds the larger of its value and the written one |
| Components.Port.Read | Assets/Scripts/Components.cs:123-126 | a legacy port always has a channel and reads that channel's value |
| Components.Port.Reset | Assets/Scripts/Components.cs:128-131 | the port reads 0 afterwards |
| Components.SignalNetworkGraph.constructor | Assets/Scripts/Components.cs:9-11 | a new network has no port, no wire and no tracked channel |
| Components.SignalNetworkGraph.AddPort | Assets/Scripts/Components.cs:13-18 | a new vertex gets its own fresh channel, which joins the tracked list; a vertex already there is unchanged; the legacy invariant holds |
| Components.SignalNetworkGraph.RemovePort | Assets/Scripts/Components.cs:20-25 | the vertex and exactly its wires are removed, only ports of its component change channel, the port keeps a channel, and the invariant holds |
| Components.SignalNetworkGraph.RemovePortAsWritten | Assets/Scripts/Components.cs:20-25 | as written the enumeration throws exactly when the port has a wire; then only one of its wires is gone and the port stays a vertex; a port without wires is removed with the wires untouched |
| Components.SignalNetworkGraph.DisconnectAll | Assets/Scripts/Components.cs:22 | afterwards the port has no wire, exactly its wires are gone, and only ports of its component changed channel |
| Components.SignalNetworkGraph.ConnectWire | Assets/Scripts/Components.cs:27-34 | `port2`'s whole component takes `port1`'s channel, one copy of `port2`'s old channel leaves the tracked list and `port1`'s is added, and the wire is stored with `port1` as source; the invariant holds |
| Components.SignalNetworkGraph.DisconnectWire | Assets/Scripts/Components.cs:36-44 | an unknown wire changes nothing; otherwise the wire is gone and exactly the ports the target still reaches take a fresh channel that joins the tracked list while the old one stays; only the source's old component changes |
| Components.SignalNetworkGraph.FloodWithin | Assets/Scripts/Components.cs:43 | the flood from the removed wire's target reaches only ports its source reached before |
| Components.SignalNetworkGraph.AssignSinalChannelBFS | Assets/Scripts/Components.cs:46-68 | the channel lands on exactly the ports reachable from the start port; the start's old channel leaves the tracked list once when asked and the new one joins it |
| Components.SignalNetworkGraph.Flood | Assets/Scripts/Components.cs:51-67 | exactly the ports reachable from the start port take the channel |
| Components.SignalNetworkGraph.BreadthFirst | Assets/Scripts/Components.cs:56-67 | the queue loop reaches the start port and a set closed under adjacency that lies inside every closed set holding the start: the start's component |
| Components.SignalNetworkGraph.Dequeue | Assets/Scripts/Components.cs:58-66 | one turn marks the head reached, keeps the search state, and either visits a new port or shortens the queue |
| Components.SignalNetworkGraph.EnqueueNew | Assets/Scripts/Components.cs:61-66 | exactly the unvisited neighbours are queued and marked visited |
| Components.SignalNetworkGraph.ResetSignalChannels | Assets/Scripts/Components.cs:70-73 | every tracked channel holds 0, so under the invariant every port of the network has a channel and reads 0 |
| Components.Sensor.constructor | Assets/Scripts/Components.cs:136-137 | a new sensor has no network and no output port |
| Components.Sensor.Initialize | Assets/Scripts/Components.cs:140-144 | the sensor makes its output port, which joins the network with a fresh tracked channel |
| Components.Sensor.Read | Assets/Scripts/Components.cs:146-149 | the base reading 0 is max-combined into the output channel |
| Components.Actuator.constructor | Assets/Scripts/Components.cs:277-278 | a new actuator has no network and no input port |
| Components.Actuator.Initialize | Assets/Scripts/Components.cs:281-285 | the actuator makes its single input port, which joins the network with a fresh tracked channel |
| Components.Actuator.Write | Assets/Scripts/Components.cs:287-290 | the device is handed the value of its one input channel |
| Components.Processor.constructor | Assets/Scripts/Components.cs:155-161 | a new processor has no network, no ports, an empty queue, a processed signal of 0 and no chain links |
| Components.Processor.Initialize | Assets/Scripts/Components.cs:165-171 | with the corrected input setup, a count of at least 1 gives that many new ports of the network, the output port joins with a fresh channel, and a valid delay gives a queue of that many zeros |
| Components.Processor.SetInputChannelCount | Assets/Scripts/Components.cs:173-193 | a count below 1 changes nothing; the first call leaves every slot of the new array empty; a resize keeps the ports below the smaller size and gives every new slot a new port of the network |
| Components.Processor.SetInputChannelCountIntended | Assets/Scripts/Components.cs:186-191 | as `SetInputChannelCount`, except that the first call gives every slot a new port of the network |
| Components.Processor.Resized | Assets/Scripts/Components.cs:188-190 | the new array keeps the old ports below the old size and holds a new port of the network in every slot from there on |
| Components.Processor.SetOutputDelay | Assets/Scripts/Components.cs:195-205 | a delay below 1 keeps the queue; otherwise the queue is exactly `delayTicks` zeros |
| Components.Processor.Chain | Assets/Scripts/Components.cs:208-220 | an input already chained is refused with nothing changed; otherwise the processors are linked both ways and the first input and the upstream output leave the network and share a fresh untracked channel |
| Components.Processor.IsInputChained | Assets/Scripts/Components.cs:239-242 | the input is chained exactly when there is an upstream processor |
| Components.Processor.IsOutputChained | Assets/Scripts/Components.cs:244-247 | the output is chained exactly when there is a downstream processor |
| Components.Processor.Unchain | Assets/Scripts/Components.cs:222-231 | an input not chained is refused with nothing changed; otherwise both link ports join the network again, each with a fresh tracked channel of its own, and both links are cleared |
| Components.Processor.UnchainOutput | Assets/Scripts/Components.cs:233-237 | it succeeds exactly when the output is chained and the processor downstream is input-chained; then both links of that pair are cleared, the two ports rejoin the network with fresh channels of their own appended to the channel list, and the wires stay as they were |
| Components.Processor.AdvanceOutputQueue | Assets/Scripts/Components.cs:266-272 | unchained, the oldest queued signal is max-combined into the output channel and the last computed one joins the back; chained, the queue is kept; the queue keeps its length |
| Lists.RemoveFirst | Assets/Scripts/Signals/Signals.cs:80 | `List.Remove` leaves a list without the value as it is, and otherwise takes exactly one copy of it out |
| Lists.RemoveFirstAt | Assets/Scripts/Signals/Signals.cs:80 | the copy `List.Remove` takes out is the first one, and the values before and after it keep their order |

## Left out

- Rendering, UI, focus and highlighting are not modelled: `FocusStructure`, `Unfocus`, the port highlights, `ShowPowerLevelUI`, the power-level and structure UIs, `OnInspectorGUI` and `Item.Destroy`. They hold no simulation state.
- Save and load (`SaveState`, `RestoreState`, every `GetStateJson` and `RestoreStateJson`) are not modelled. This is persistence only.
- Unity object creation is outside the model. `Instantiate` of a structure prefab is a parameter of `AddStructure`, which receives the instantiated structure, and `Destroy` of a wire or a train object is dropped.
- Rails and conveyors are linked to each other by `ConnectRail`, `DisconnectRail`, `ConnectConveyor` and `DisconnectConveyor`. These, the conveyed resources (`ResourceEnterTile`, `ResourceExitTile`, `GetTileResources`, `ExitInventory`) and the rail and conveyor classes are not part of this model. The model keeps only what the manager reads of them: a rail's train list and the next-direction answer, which is the parameter `railNext` of `GetNextTrainOrientation`.
- `RotateStructureClockwise` is not modelled. It depends on `Structure.RotateClockwise`, which is not part of this model, and it is a `RemoveStructure` followed by an `AddStructure` of a new instance.
- `CanBuildTrain`, `BuildTrain`, `TrainEnterTile`, `TrainExitTile` and the manager's `DestroyTrain` keep the rails' train lists. The model does not include them. The train methods return the tiles they enter and leave instead.
- Train motion is left out: `Update`, `InterpolateCart`, `InterpolatePath`, `OnTriggerEnter` and the float positions of carts. This is Unity frame timing, transforms and physics.
- The train's float fields (speed, acceleration, interpolation) are modelled as `real`, without float rounding.
- `Train.RemoveCart` is not modelled, because its body in the source is an unfinished stub after its moving-train check.
- Signals are `float` in the source and `int` here. The gates only take max, min, sums, clamps and comparisons.
- The QuikGraph graph is modelled as the wire dictionary. Its `AddEdge` never fails on an undirected graph that allows parallel edges, so the "Failed to add edge" exception is unreachable and not modelled.
- Signals.PortNetworkGraph.ConnectWire, Structures.SignalNetworkGraph.ConnectWire and Components.SignalNetworkGraph.ConnectWire require a wire not yet in the dictionary. In the source, `_wires.Add` throws on a duplicate wire after the channels were already reassigned, and the model does not reproduce that half-done state.
- Signals.PortNetworkGraph.AssignSignalChannelBFS, Structures.SignalNetworkGraph.AssignSignalChannelBFS and Components.SignalNetworkGraph.AssignSinalChannelBFS state the final channels, not the order in which the flood writes them. The search returns the reached set, and the colouring follows. No other code runs between the writes, so the order cannot be observed.
- Signals.PortNetworkGraph.RemovePort disconnects a snapshot of the port's wires, as the source's `.ToList()` does, in an arbitrary order. QuikGraph's enumeration order is not modelled, and the contract holds for every order.
- Structures.SignalNetworkGraph.RemovePort and Components.SignalNetworkGraph.RemovePort are the corrected snapshot loop. As written, the source walks the live edge list and throws once a wire is gone; `RemovePortAsWritten` models that, and "## Findings" records it.
- Signals.Port.AddToNetwork, Structures.Port.AddToNetwork, Structures.Processor.Chain, Structures.Processor.Unchain, Structures.Processor.UnchainOutput, Components.Processor.Chain, Components.Processor.Unchain and Components.Processor.UnchainOutput return false with nothing changed where the source throws.
- Components.Processor.Initialize uses the corrected input-array setup; see "## Findings".
- The legacy `Processor.Process` of `Components` is not modelled. It has the same body as `Structures.Processor.Process`, which is modelled with its chain recursion.
- Structures.Processor.Process requires enough input ports for the gate's direct indexing (`Arity`), where the source would throw `IndexOutOfRangeException`. It also takes the downstream chain as a ghost parameter that must be acyclic. A cyclic chain would recurse without end in the source.
- Only the sensor kinds of this model have a `ReadSensor`: the base sensor, `Constant`, and the train detector in `RailDevices`. Other sensor classes are not part of this model.
- GameManagement.GameManager.AddStructure, GameManagement.GameManager.PlaceProcessor, GameManagement.GameManager.ProcessorPlaced and GameManagement.CoversAdded place only processors of size 1. For a larger processor the source chains the processor to itself (`FrontIsItself`), and its `Process` then recurses without end; "## Findings" records this.
- Trains.Train.AdvancePath, Trains.Train.AddCart and Trains.Train.Initialize assume the rails answer each tile with no direction or with at least two, and with two on any tile where a train may be built (`WellAnswered`, `BuildableAnswered`). A tile answering one direction equal to the head would make the source throw at `newOrientations[1]` (Train.cs:124).
- RecipeMachines.RecipeMachine.FinishRecipe and RecipeMachines.RecipeMachine.DropInventory drop the Unity side of the resources: `DestroyResource` of the consumed ingredients, `EnterInventory` of new products, `base.DropInventory` and `ExitInventory`. When a product names an output channel that does not exist, the resource the source instantiates just before the throwing `Add` is left in the scene; the model does not create it.
- GameManagement.GameManager.HasMaterials, GameManagement.GameManager.SpendMaterials and GameManagement.GameManager.AddMaterials require the cost vector to be no longer than the stock. A longer one makes the source throw `IndexOutOfRangeException`.
- GameManagement.GameManager.RemoveStructure returns `NoStructure` on an empty tile, where the source throws, and changes nothing.
- GameManagement.GameManager.FixedUpdate returns the tick as the list of steps it runs, in phase order, rather than running the device methods. Each step is one of those methods, and its effect is the contract stated in that method's own module. The order in which a `foreach` hands out a dictionary's entries is picked arbitrarily, and the contract holds for every such order.

## Findings

| source | as written | input that shows it | evidently intended | confidence | as-written member | corrected member |
|---|---|---|---|---|---|---|
| Assets/Scripts/GameManager.cs:447 | `RemoveStructure(tile)` frees the size×size square spanned from the tile it was given, not from the structure's origin | a size-2 structure placed at (0,0) facing (0,1), removed through tile (1,1): tiles (1,1), (2,1), (1,2) and (2,2) are freed, and (0,0) stays mapped to the removed structure | free exactly the structure's own footprint, spanned from `structure.tile` | medium; not executed | GameManagement.FreedAsWrittenLeavesTiles | GameManagement.GameManager.RemoveStructure |
| Assets/Scripts/Components.cs:181-185 | the first `SetInputChannelCount` call creates the input array with every slot null, and only a resize creates ports | `Initialize(graph, 1, 1)` on a new legacy processor: `inputPorts[0]` is null, so the next `Process` dereferences null | create a port of the network for every slot, as the resize branch does for new slots | medium; not executed | Components.Processor.SetInputChannelCount | Components.Processor.SetInputChannelCountIntended |
| Assets/Scripts/GameManager.cs:229-316 | the footprint is recorded in `_tiles` before the chaining looks at `tile + orientation`, which for a processor of size two or more is one of its own tiles | a size-2 processor placed at (0,0) facing (0,1): the front tile (0,1) holds the new processor with the same orientation, so it is chained to itself and its next `Process` recurses without end | chain only to a different processor in front, as for size 1, where the front tile lies outside the footprint | medium; not executed | GameManagement.FrontIsItself | GameManagement.GameManager.AddStructure |
| Assets/Scripts/Structures/Structures.cs:20-25 | `foreach` over the live `AdjacentEdges(port)` while `DisconnectWire` removes from that list | a port with one wire: the edge is removed, the enumerator's next step throws `InvalidOperationException`, and the port stays in the graph | disconnect over a snapshot (`.ToList()`, as Signals/Signals.cs:22 does), then remove the vertex | medium; not executed | Structures.SignalNetworkGraph.RemovePortAsWritten | Structures.SignalNetworkGraph.RemovePort |
| Assets/Scripts/Components.cs:20-25 | the same live-list `foreach` as in Structures.cs | a port with one wire: the edge is removed, the enumerator throws, and the port stays in the graph | disconnect over a snapshot, then remove the vertex | medium; not executed | Components.SignalNetworkGraph.RemovePortAsWritten | Components.SignalNetworkGraph.RemovePort |
