/**
 * The legacy signal network (namespace `Components`): the first version of
 * the port graph. Every port gets its own channel when it joins, so a port
 * of the network always has one; connecting floods the second port's
 * component with the first port's channel, and disconnecting floods the
 * wire's target side with a fresh channel while the old one stays tracked.
 * The network keeps `PortGraphs.LegacyInvariant`. Its processors, sensors
 * and actuators create their own ports.
 */
module Components {
  import opened PortGraphs
  import opened Lists

  /** A wire is a game object; the network only uses its identity as an edge tag. */
  class Wire { }

  function Max(a: int, b: int): int
  {
    if a >= b then a else b
  }

  /** `List<SignalChannel>.Remove`: the list never holds null, so removing null leaves it as it is. */
  function Remove(list: seq<SignalChannel>, c: SignalChannel?): seq<SignalChannel>
  {
    if c == null then list else var d: SignalChannel := c; RemoveFirst(list, d)
  }

  /** After `Remove(list, c)`, every other channel of `list` is still there. */
  lemma TrackedAfterRemove(list: seq<SignalChannel>, c: SignalChannel?)
    ensures forall d :: d in list && d != c ==> d in Remove(list, c)
  {
    forall d | d in list && d != c
      ensures d in Remove(list, c)
    {
      if c != null {
        var e: SignalChannel := c;
        RemoveFirstKeeps(list, e, d);
      }
    }
  }

  /** Flooding with a channel keeps a channel on every port. */
  lemma FloodKeepsChannelled<W, V, C>(wires: map<W, Edge<V>>, chans: map<V, C>, start: V, c: C, after: map<V, C>, none: C)
    requires AllChannelled(chans, none) && c != none && Flooded(wires, chans, start, c, after)
    ensures AllChannelled(after, none)
  {
  }

  /** A shared signal line: writers combine by maximum until the next reset. */
  class SignalChannel {
    var signal: int

    constructor ()
      ensures signal == 0
    {
      signal := 0;
    }

    method Reset()
      modifies this
      ensures signal == 0
    {
      signal := 0;
    }

    /** Max-combine: the stored value never goes down and covers `s`. */
    method Write(s: int)
      modifies this
      ensures signal == Max(old(signal), s)
    {
      signal := Max(signal, s);
    }

    function Read(): int
      reads this
    {
      signal
    }
  }

  /**
   * A legacy port belongs to one network for its whole life and joins it
   * when it is made. Reading, writing and resetting go straight to the
   * channel, which a port of the network always has.
   */
  class Port {
    const network: SignalNetworkGraph
    var signalChannel: SignalChannel?

    /** A new port joins `graph` at once, with a fresh channel of its own. */
    constructor (graph: SignalNetworkGraph)
      requires graph.Valid()
      modifies graph
      ensures network == graph && graph.Valid()
      ensures graph.vertices == old(graph.vertices) + {this} && graph.wires == old(graph.wires)
      ensures signalChannel != null && fresh(signalChannel)
      ensures graph.signalChannels == old(graph.signalChannels) + [signalChannel]
    {
      network := graph;
      signalChannel := null;
      new;
      Connect();
    }

    /** Joins the network again; a port already in it is left alone. */
    method Connect()
      requires network.Valid()
      modifies network`vertices, network`signalChannels, this`signalChannel
      ensures network.Valid() && network.vertices == old(network.vertices) + {this}
      ensures this in old(network.vertices) ==> signalChannel == old(signalChannel) && network.signalChannels == old(network.signalChannels)
      ensures this !in old(network.vertices) ==>
                signalChannel != null && fresh(signalChannel) && network.signalChannels == old(network.signalChannels) + [signalChannel]
    {
      network.AddPort(this);
    }

    /** Leaves the network: every wire on it is disconnected and the vertex removed; the port keeps a channel. */
    method Disconnect()
      requires network.Valid() && this in network.vertices
      modifies network`vertices, network`wires, network`signalChannels, network.vertices`signalChannel
      ensures network.Valid() && network.vertices == old(network.vertices) - {this}
      ensures forall w :: w in network.wires <==> w in old(network.wires) && w !in Incident(old(network.wires), this)
      ensures signalChannel != null
    {
      network.RemovePort(this);
    }

    method Write(signal: int)
      requires signalChannel != null
      modifies signalChannel
      ensures signalChannel.signal == Max(old(signalChannel.signal), signal)
    {
      signalChannel.Write(signal);
    }

    function Read(): int
      requires signalChannel != null
      reads this, signalChannel
    {
      signalChannel.Read()
    }

    method Reset()
      requires signalChannel != null
      modifies signalChannel
      ensures Read() == 0
    {
      signalChannel.Reset();
    }
  }

  class SignalNetworkGraph {
    var vertices: set<Port>
    /** Each wire tags one undirected edge; the graph's edges are exactly these. */
    var wires: map<Wire, Edge<Port>>
    var signalChannels: seq<SignalChannel>

    /** The channel of every vertex. */
    ghost function Channels(): (r: map<Port, SignalChannel?>)
      reads this`vertices, vertices`signalChannel
      ensures r.Keys == vertices
    {
      map p | p in vertices :: p.signalChannel
    }

    /** The legacy invariant over the current state. */
    ghost predicate Valid()
      reads this`vertices, this`wires, this`signalChannels, vertices`signalChannel
    {
      LegacyInvariant(wires, Channels(), signalChannels, null)
    }

    constructor ()
      ensures Valid() && vertices == {} && wires == map[] && signalChannels == []
    {
      vertices := {};
      wires := map[];
      signalChannels := [];
    }

    /** Reads the channel map back from the ports. */
    lemma ChannelsAre(m: map<Port, SignalChannel?>)
      requires vertices == m.Keys && forall p :: p in m ==> p.signalChannel == m[p]
      ensures Channels() == m
    {
    }

    /** A new vertex gets a fresh channel, which joins the tracked list; an existing one is left alone. */
    method AddPort(port: Port)
      requires Valid()
      modifies this`vertices, this`signalChannels, port`signalChannel
      ensures Valid()
      ensures vertices == old(vertices) + {port} && wires == old(wires)
      ensures port in old(vertices) ==> port.signalChannel == old(port.signalChannel) && signalChannels == old(signalChannels)
      ensures port !in old(vertices) ==>
                port.signalChannel != null && fresh(port.signalChannel) && signalChannels == old(signalChannels) + [port.signalChannel]
      ensures Channels() == old(Channels())[port := port.signalChannel]
    {
      if port in vertices {
        return;
      }
      ghost var before := Channels();
      var c := new SignalChannel();
      AddChannelledPortKeeps(wires, before, signalChannels, null, port, c);
      vertices := vertices + {port};
      port.signalChannel := c;
      signalChannels := signalChannels + [c];
      ChannelsAre(before[port := c]);
    }

    /**
     * Disconnects every wire on `port` (over a snapshot of them, in any
     * order), drops one copy of its channel from the tracked list and
     * removes the vertex. Only ports of `port`'s component can change.
     */
    method RemovePort(port: Port)
      requires Valid() && port in vertices
      modifies this`vertices, this`wires, this`signalChannels, vertices`signalChannel
      ensures Valid()
      ensures vertices == old(vertices) - {port}
      ensures forall u :: u in wires <==> u in old(wires) && u !in Incident(old(wires), port)
      ensures forall u :: u in wires ==> wires[u] == old(wires)[u]
      ensures ChangedWithin(old(wires), old(Channels()), Channels(), port)
      ensures port.signalChannel != null
    {
      DisconnectAll(port);
      ghost var list0, before := signalChannels, Channels();
      assert before[port] == port.signalChannel;
      signalChannels := Remove(signalChannels, port.signalChannel);
      TrackedAfterRemove(list0, port.signalChannel);
      RemoveIsolatedKeeps(wires, before, list0, null, port, signalChannels);
      vertices := vertices - {port};
      ChannelsAre(before - {port});
    }

    /**
     * `RemovePort` as the source writes it: the loop walks the live list of
     * `port`'s wires while `DisconnectWire` removes from that list, so the
     * enumeration throws as soon as one wire is gone. A port with wires
     * then keeps its vertex and all its wires but that first one.
     */
    method RemovePortAsWritten(port: Port) returns (thrown: bool)
      requires Valid() && port in vertices
      modifies this`vertices, this`wires, this`signalChannels, vertices`signalChannel
      ensures Valid()
      ensures thrown <==> Incident(old(wires), port) != {}
      ensures thrown ==> port in vertices && vertices == old(vertices)
      ensures thrown ==>
                exists w :: w in Incident(old(wires), port) && wires == old(wires) - {w}
      ensures !thrown ==> vertices == old(vertices) - {port} && wires == old(wires)
    {
      var edges := Incident(wires, port);
      if edges != {} {
        ghost var some := Member(edges);
        var w :| w in edges;
        DisconnectWire(w);
        return true;
      }
      RemovePort(port);
      return false;
    }

    /** The loop of `RemovePort`: disconnects each wire of a snapshot of `port`'s wires. */
    method DisconnectAll(port: Port)
      requires Valid() && port in vertices
      modifies this`wires, this`signalChannels, vertices`signalChannel
      ensures Valid() && Neighbors(wires, port) == {}
      ensures Remaining(old(wires), port, {}, wires)
      ensures ChangedWithin(old(wires), old(Channels()), Channels(), port)
    {
      var edges := Incident(wires, port);
      ghost var wires0, chans0 := wires, Channels();
      while edges != {}
        invariant Valid()
        invariant edges <= Incident(wires0, port) && Remaining(wires0, port, edges, wires)
        invariant ChangedWithin(wires0, chans0, Channels(), port)
        decreases edges
      {
        ghost var some := Member(edges);
        var w :| w in edges;
        ghost var edgesBefore, wiresBefore, chansBefore := edges, wires, Channels();
        edges := edges - {w};
        DisconnectWire(w);
        RemainingStep(wires0, port, edgesBefore, w, wiresBefore, wires);
        ChangedWithinStep(wires0, wiresBefore, w, port, chans0, chansBefore, Channels());
      }
      RemainingNone(wires0, port, wires);
    }

    /**
     * The wires left while `RemovePort` works through the snapshot of
     * `port`'s wires: the other wires, and the snapshot's `edges` not yet
     * disconnected.
     */
    static ghost predicate Remaining(wires0: map<Wire, Edge<Port>>, port: Port, edges: set<Wire>, wires: map<Wire, Edge<Port>>)
    {
      && (forall u :: u in wires ==> u in wires0 && (u !in Incident(wires0, port) || u in edges))
      && (forall u :: u in wires0 && (u !in Incident(wires0, port) || u in edges) ==> u in wires)
      && (forall u :: u in wires ==> wires[u] == wires0[u])
    }

    /** Once the snapshot is used up, `port` has no wire left. */
    static lemma RemainingNone(wires0: map<Wire, Edge<Port>>, port: Port, wires: map<Wire, Edge<Port>>)
      requires Remaining(wires0, port, {}, wires)
      ensures Neighbors(wires, port) == {}
    {
      assert Incident(wires, port) == {};
      IncidentNeighbors(wires, port);
    }

    static lemma RemainingStep(wires0: map<Wire, Edge<Port>>, port: Port, edges: set<Wire>, w: Wire,
                               wires: map<Wire, Edge<Port>>, wires': map<Wire, Edge<Port>>)
      requires edges <= Incident(wires0, port) && Remaining(wires0, port, edges, wires)
      requires w in edges && wires' == wires - {w}
      ensures Remaining(wires0, port, edges - {w}, wires')
    {
    }

    /**
     * Floods `port2`'s whole component with `port1`'s channel, dropping one
     * copy of `port2`'s old channel from the tracked list and adding
     * `port1`'s, then adds the wire with `port1` as its source.
     */
    method ConnectWire(wire: Wire, port1: Port, port2: Port)
      requires Valid()
      requires port1 in vertices && port2 in vertices && wire !in wires
      modifies this`wires, this`signalChannels, vertices`signalChannel
      ensures Valid()
      ensures wires == old(wires)[wire := Edge(port1, port2)]
      ensures port1.signalChannel == old(port1.signalChannel) && port2.signalChannel == port1.signalChannel
      ensures Channels() == Joined(old(wires), old(Channels()), port1, port2, port1.signalChannel)
      ensures signalChannels == Remove(old(signalChannels), old(port2.signalChannel)) + [port1.signalChannel]
    {
      ghost var chans0, list0 := Channels(), signalChannels;
      WellFormedEnds(wires, chans0, wire);
      AssignSinalChannelBFS(port2, port1.signalChannel, true);
      TrackedAfterRemove(list0, chans0[port2]);
      FloodConnectKeeps(wires, chans0, list0, null, port2, port1, Channels(), signalChannels, wire, Edge(port1, port2));
      FloodKeepsChannelled(wires, chans0, port2, chans0[port1], Channels(), null);
      FloodJoins(wires, chans0, port2, port1, Channels());
      AddEdge(wire, Edge(port1, port2));
    }

    /** Records the wire; the channels stay as they are. */
    method AddEdge(wire: Wire, edge: Edge<Port>)
      modifies this`wires
      ensures wires == old(wires)[wire := edge] && Channels() == old(Channels())
    {
      wires := wires[wire := edge];
    }

    /** Forgets the wire; the channels stay as they are. */
    method RemoveEdge(wire: Wire)
      modifies this`wires
      ensures wires == old(wires) - {wire} && Channels() == old(Channels())
    {
      wires := wires - {wire};
    }

    /**
     * Removes a known wire and floods its target's component with a fresh
     * channel, which joins the tracked list; the old channel stays tracked.
     * An unknown wire is ignored.
     */
    method DisconnectWire(wire: Wire)
      requires Valid()
      modifies this`wires, this`signalChannels, vertices`signalChannel
      ensures Valid()
      ensures wire !in old(wires) ==> wires == old(wires) && signalChannels == old(signalChannels) && Channels() == old(Channels())
      ensures wire in old(wires) ==> wires == old(wires) - {wire}
      ensures wire in old(wires) ==>
                var t := old(wires)[wire].target;
                && t.signalChannel != null && fresh(t.signalChannel)
                && signalChannels == old(signalChannels) + [t.signalChannel]
                && Flooded(wires, old(Channels()), t, t.signalChannel, Channels())
      ensures wire in old(wires) ==> ChangedWithin(old(wires), old(Channels()), Channels(), old(wires)[wire].source)
    {
      if wire !in wires {
        return;
      }
      var edge := wires[wire];
      ghost var wires0, chans0, list0 := wires, Channels(), signalChannels;
      WellFormedEnds(wires0, chans0, wire);
      RemoveEdge(wire);
      var c := new SignalChannel();
      AssignSinalChannelBFS(edge.target, c, false);
      SplitKeeps(wires0, chans0, list0, null, wire, edge.target, c, Channels(), signalChannels);
      FloodKeepsChannelled(wires, chans0, edge.target, c, Channels(), null);
      FloodWithin(wires0, wire, chans0, Channels(), c);
    }

    /** The flood from the removed wire's target only reaches what its source reached before. */
    static lemma FloodWithin(wires0: map<Wire, Edge<Port>>, w: Wire, chans0: map<Port, SignalChannel?>, after: map<Port, SignalChannel?>, c: SignalChannel)
      requires w in wires0 && Flooded(wires0 - {w}, chans0, wires0[w].target, c, after)
      ensures ChangedWithin(wires0, chans0, after, wires0[w].source)
    {
      var s, t := wires0[w].source, wires0[w].target;
      assert t in Neighbors(wires0, s);
      ReachableNeighbor(wires0, s, t);
      forall p | p in chans0 && p in after && after[p] != chans0[p]
        ensures Reachable(wires0, s, p)
      {
        ReachableMonotone(wires0 - {w}, wires0, t, p);
        ReachableTrans(wires0, s, t, p);
      }
    }

    /**
     * Breadth-first flood fill: `signalChannel` lands on exactly the ports
     * reachable from `startPort`. First the old channel of `startPort` may
     * leave the tracked list (one copy), and the new one joins it.
     */
    method AssignSinalChannelBFS(startPort: Port, signalChannel: SignalChannel, removeOldChannel: bool)
      requires startPort in vertices && EndsIn(wires, vertices)
      modifies this`signalChannels, vertices`signalChannel
      ensures signalChannels == (if removeOldChannel then Remove(old(signalChannels), old(startPort.signalChannel)) else old(signalChannels))
                                + [signalChannel]
      ensures Flooded(wires, old(Channels()), startPort, signalChannel, Channels())
      ensures startPort.signalChannel == signalChannel
    {
      Retrack(startPort.signalChannel, signalChannel, removeOldChannel);
      Flood(startPort, signalChannel);
    }

    /** The tracked-list half of the flood fill; no port changes. */
    method Retrack(oldChannel: SignalChannel?, signalChannel: SignalChannel, removeOldChannel: bool)
      modifies this`signalChannels
      ensures signalChannels == (if removeOldChannel then Remove(old(signalChannels), oldChannel) else old(signalChannels)) + [signalChannel]
      ensures Channels() == old(Channels())
    {
      if removeOldChannel {
        signalChannels := Remove(signalChannels, oldChannel);
      }
      signalChannels := signalChannels + [signalChannel];
    }

    /** The port half of the flood fill: the breadth-first search, then the colouring. */
    method Flood(startPort: Port, signalChannel: SignalChannel)
      requires startPort in vertices && EndsIn(wires, vertices)
      modifies vertices`signalChannel
      ensures Flooded(wires, old(Channels()), startPort, signalChannel, Channels())
      ensures startPort.signalChannel == signalChannel
    {
      ghost var before := Channels();
      ReachableSelf(wires, startPort);
      ghost var component := Component(wires, vertices, startPort);
      forall x | x in component
        ensures Neighbors(wires, x) <= component
      {
        ComponentClosed(wires, vertices, startPort, x);
      }
      var reached := BreadthFirst(wires, vertices, startPort, component);
      ClosedIsComponent(wires, vertices, startPort, reached);
      SetChannel(reached, signalChannel);
    }

    /** The state of the flood fill's queue loop between two dequeues. */
    static ghost predicate Searching(wires: map<Wire, Edge<Port>>, vertices: set<Port>, startPort: Port, within: set<Port>,
                                     queue: seq<Port>, visited: set<Port>, reached: set<Port>)
    {
      && startPort in visited
      && (forall p :: p in visited ==> p in within && p in vertices)
      && (forall p :: p in reached ==> p in visited)
      && (forall q :: q in queue ==> q in visited)
      && (forall p :: p in visited ==> p in reached || p in queue)
      && (forall p, q :: p in reached && q in Neighbors(wires, p) ==> q in visited)
      && |visited| <= |vertices|
    }

    /**
     * The queue loop of the flood fill. The ports it dequeues hold
     * `startPort`, are closed under adjacency, and stay inside any set
     * `within` that has both properties: they are the least such set.
     */
    static method BreadthFirst(wires: map<Wire, Edge<Port>>, vertices: set<Port>, startPort: Port, ghost within: set<Port>)
      returns (reached: set<Port>)
      requires startPort in vertices && EndsIn(wires, vertices)
      requires startPort in within && forall x :: x in within ==> Neighbors(wires, x) <= within
      ensures startPort in reached && reached <= within && reached <= vertices
      ensures forall p :: p in reached ==> Neighbors(wires, p) <= reached
    {
      var queue := [startPort];
      var visited := {startPort};
      reached := {};
      while |queue| > 0
        invariant Searching(wires, vertices, startPort, within, queue, visited, reached)
        decreases |vertices| - |visited|, |queue|
      {
        queue, visited, reached := Dequeue(wires, vertices, startPort, within, queue, visited, reached);
      }
    }

    /** One turn of the queue loop: take the head, mark it reached, queue its unvisited neighbours. */
    static method Dequeue(wires: map<Wire, Edge<Port>>, vertices: set<Port>, startPort: Port, ghost within: set<Port>,
                          queue: seq<Port>, visited: set<Port>, reached: set<Port>)
      returns (queue': seq<Port>, visited': set<Port>, reached': set<Port>)
      requires EndsIn(wires, vertices) && forall x :: x in within ==> Neighbors(wires, x) <= within
      requires |queue| > 0 && Searching(wires, vertices, startPort, within, queue, visited, reached)
      ensures Searching(wires, vertices, startPort, within, queue', visited', reached')
      ensures reached' == reached + {queue[0]}
      ensures |visited'| > |visited| || (|visited'| == |visited| && |queue'| < |queue|)
    {
      var current := queue[0];
      queue' := queue[1..];
      reached' := reached + {current};
      NeighborsWithin(wires, vertices, current);
      queue', visited' := EnqueueNew(queue', visited, Neighbors(wires, current));
      SubsetNotLarger(visited', vertices);
    }

    /** Colours the ports `BreadthFirst` reached; the order does not matter. */
    static method SetChannel(reached: set<Port>, signalChannel: SignalChannel)
      modifies reached`signalChannel
      ensures forall p :: p in reached ==> p.signalChannel == signalChannel
    {
      var rest := reached;
      while rest != {}
        invariant rest <= reached
        invariant forall p :: p in reached - rest ==> p.signalChannel == signalChannel
        decreases rest
      {
        var p :| p in rest;
        p.signalChannel := signalChannel;
        rest := rest - {p};
      }
    }

    /** The inner step of the flood fill: queue, in some order, each port of `next` not yet visited. */
    static method EnqueueNew(queue: seq<Port>, visited: set<Port>, next: set<Port>) returns (queue': seq<Port>, visited': set<Port>)
      ensures visited' == visited + next
      ensures forall q :: q in queue' <==> q in queue || q in next - visited
      ensures |queue'| - |queue| == |visited'| - |visited| >= 0
    {
      queue', visited' := queue, visited;
      var rest := next;
      while rest != {}
        invariant rest <= next
        invariant forall x :: x in visited' <==> x in visited || (x in next && x !in rest)
        invariant forall q :: q in queue' <==> q in queue || (q in next && q !in rest && q !in visited)
        invariant |queue'| - |queue| == |visited'| - |visited| >= 0
        decreases rest
      {
        var n :| n in rest;
        rest := rest - {n};
        if n !in visited' {
          AddOneMore(visited', n);
          queue' := queue' + [n];
          visited' := visited' + {n};
        }
      }
    }


    /** Gives a port outside the network a channel; the network's state stays as it is. */
    method SetOutside(port: Port, signalChannel: SignalChannel)
      requires port !in vertices
      modifies port`signalChannel
      ensures port.signalChannel == signalChannel && Channels() == old(Channels())
    {
      port.signalChannel := signalChannel;
    }

    /** Clears every tracked channel; under the invariant every port then reads 0. */
    method ResetSignalChannels()
      modifies set c | c in signalChannels
      ensures forall c :: c in signalChannels ==> c.signal == 0
      ensures Valid() ==> forall p :: p in vertices ==> p.signalChannel != null && p.Read() == 0
    {
      var i := 0;
      while i < |signalChannels|
        invariant 0 <= i <= |signalChannels|
        invariant forall j :: 0 <= j < i ==> signalChannels[j].signal == 0
      {
        signalChannels[i].Reset();
        i := i + 1;
      }
      if Valid() {
        forall p | p in vertices
          ensures p.signalChannel != null && p.signalChannel.signal == 0
        {
          assert Channels()[p] == p.signalChannel;
          assert p.signalChannel in signalChannels;
        }
      }
    }
  }

  // ---------------------------------------------------------------------
  // Devices
  // ---------------------------------------------------------------------

  /** A legacy sensor makes its output port when initialized; its base `ReadSensor` gives 0. */
  class Sensor {
    var network: SignalNetworkGraph?
    var outputPort: Port?

    constructor ()
      ensures network == null && outputPort == null
    {
      network := null;
      outputPort := null;
    }

    method Initialize(graph: SignalNetworkGraph)
      requires graph.Valid()
      modifies this, graph
      ensures network == graph && graph.Valid()
      ensures outputPort != null && fresh(outputPort) && outputPort.network == graph && outputPort.signalChannel != null
      ensures graph.vertices == old(graph.vertices) + {outputPort} && graph.wires == old(graph.wires)
      ensures graph.signalChannels == old(graph.signalChannels) + [outputPort.signalChannel]
    {
      network := graph;
      outputPort := new Port(network);
    }

    /** Max-combines the base reading, 0, into the output channel. */
    method Read()
      requires outputPort != null && outputPort.signalChannel != null
      modifies outputPort.signalChannel
      ensures outputPort.signalChannel.signal == Max(old(outputPort.signalChannel.signal), 0)
    {
      outputPort.Write(0);
    }
  }

  /** A legacy actuator has a single input port and hands its value on. */
  class Actuator {
    var network: SignalNetworkGraph?
    var inputPort: Port?

    constructor ()
      ensures network == null && inputPort == null
    {
      network := null;
      inputPort := null;
    }

    method Initialize(graph: SignalNetworkGraph)
      requires graph.Valid()
      modifies this, graph
      ensures network == graph && graph.Valid()
      ensures inputPort != null && fresh(inputPort) && inputPort.network == graph && inputPort.signalChannel != null
      ensures graph.vertices == old(graph.vertices) + {inputPort} && graph.wires == old(graph.wires)
      ensures graph.signalChannels == old(graph.signalChannels) + [inputPort.signalChannel]
    {
      network := graph;
      inputPort := new Port(network);
    }

    /** The signal handed to the device's `WriteActuator`: the input channel's value. */
    method Write() returns (signal: int)
      requires inputPort != null && inputPort.signalChannel != null
      ensures signal == inputPort.signalChannel.signal
    {
      signal := inputPort.Read();
    }
  }

  /** `n` zeros: the queue `SetOutputDelay(n)` builds. */
  function Zeros(n: nat): (r: seq<int>)
    ensures |r| == n && forall i :: 0 <= i < n ==> r[i] == 0
  {
    seq(n, _ => 0)
  }

  /**
   * A legacy processor: its input ports live in an array that
   * `SetInputChannelCount` rebuilds, its output port is made when it is
   * initialized, and it has the same delay register and chain links as
   * the current one.
   */
  class Processor {
    var network: SignalNetworkGraph?
    var inputPorts: array?<Port?>
    var outputPort: Port?
    var outputQueue: seq<int>
    var processedSignal: int
    var chainedInputProcessor: Processor?
    var chainedOutputProcessor: Processor?

    constructor ()
      ensures network == null && inputPorts == null && outputPort == null
      ensures outputQueue == [] && processedSignal == 0
      ensures chainedInputProcessor == null && chainedOutputProcessor == null
    {
      network := null;
      inputPorts := null;
      outputPort := null;
      outputQueue := [];
      processedSignal := 0;
      chainedInputProcessor := null;
      chainedOutputProcessor := null;
    }

    /**
     * Sets up the input array, then makes the output port and the delay
     * register. The input array is set up by the corrected
     * `SetInputChannelCountIntended`, so a new processor gets one port of
     * the network per input; as written the first call leaves every slot
     * empty (see `SetInputChannelCount`).
     */
    method Initialize(graph: SignalNetworkGraph, inputChannelCount: int, delayTicks: int)
      requires graph.Valid() && inputPorts == null
      modifies this, graph
      ensures network == graph && graph.Valid()
      ensures inputChannelCount >= 1 ==>
                inputPorts != null && fresh(inputPorts) && inputPorts.Length == inputChannelCount
                && forall i :: 0 <= i < inputChannelCount ==>
                     inputPorts[i] != null && fresh(inputPorts[i]) && inputPorts[i].network == graph
                     && inputPorts[i] in graph.vertices && inputPorts[i].signalChannel != null
      ensures inputChannelCount < 1 ==> inputPorts == null
      ensures outputPort != null && fresh(outputPort) && outputPort.network == graph && outputPort.signalChannel != null
      ensures outputPort in graph.vertices && old(graph.vertices) <= graph.vertices && graph.wires == old(graph.wires)
      ensures delayTicks >= 1 ==> outputQueue == Zeros(delayTicks)
      ensures delayTicks < 1 ==> outputQueue == old(outputQueue)
    {
      network := graph;
      SetInputChannelCountIntended(inputChannelCount);
      outputPort := new Port(network);
      SetOutputDelay(delayTicks);
    }

    /**
     * A count below 1 is refused. The first call makes an array of
     * `inputPortsCount` empty slots; a later one rebuilds it, keeping the
     * ports below the smaller of the two sizes and making a new port of
     * the network for every slot beyond the old size.
     */
    method SetInputChannelCount(inputPortsCount: int)
      requires inputPortsCount >= 1 && inputPorts != null && inputPortsCount > inputPorts.Length ==> network != null && network.Valid()
      modifies this`inputPorts, network
      ensures inputPortsCount < 1 ==> inputPorts == old(inputPorts)
      ensures inputPortsCount >= 1 ==> inputPorts != null && fresh(inputPorts) && inputPorts.Length == inputPortsCount
      ensures inputPortsCount >= 1 && old(inputPorts) == null ==> forall i :: 0 <= i < inputPortsCount ==> inputPorts[i] == null
      ensures inputPortsCount >= 1 && old(inputPorts) != null ==>
                forall i :: 0 <= i < inputPortsCount && i < old(inputPorts.Length) ==> inputPorts[i] == old(inputPorts[i])
      ensures inputPortsCount >= 1 && old(inputPorts) != null ==>
                forall i :: old(inputPorts.Length) <= i < inputPortsCount ==>
                  inputPorts[i] != null && fresh(inputPorts[i]) && inputPorts[i].network == network
                  && inputPorts[i] in network.vertices && inputPorts[i].signalChannel != null
      ensures network != null && (inputPortsCount < 1 || old(inputPorts) == null || inputPortsCount <= old(inputPorts.Length)) ==>
                unchanged(network)
      ensures network != null && inputPortsCount >= 1 && old(inputPorts) != null && inputPortsCount > old(inputPorts.Length) ==>
                network.Valid() && old(network.vertices) <= network.vertices && network.wires == old(network.wires)
                && forall p :: p in network.vertices && p !in old(network.vertices) ==> fresh(p)
    {
      if inputPortsCount < 1 {
        return;
      }
      if inputPorts == null {
        inputPorts := new Port?[inputPortsCount](_ => null);
        return;
      }
      inputPorts := Resized(inputPorts, inputPortsCount, network);
    }

    /**
     * `SetInputChannelCount` as its resize branch shows it is meant to
     * work: a missing array counts as an empty one, so on the first call
     * every slot gets a new port of the network.
     */
    method SetInputChannelCountIntended(inputPortsCount: int)
      requires inputPortsCount >= 1 && (inputPorts == null || inputPortsCount > inputPorts.Length) ==> network != null && network.Valid()
      modifies this`inputPorts, network
      ensures inputPortsCount < 1 ==> inputPorts == old(inputPorts)
      ensures inputPortsCount >= 1 ==> inputPorts != null && fresh(inputPorts) && inputPorts.Length == inputPortsCount
      ensures inputPortsCount >= 1 && old(inputPorts) == null ==>
                forall i :: 0 <= i < inputPortsCount ==>
                  inputPorts[i] != null && fresh(inputPorts[i]) && inputPorts[i].network == network
                  && inputPorts[i] in network.vertices && inputPorts[i].signalChannel != null
      ensures inputPortsCount >= 1 && old(inputPorts) != null ==>
                forall i :: 0 <= i < inputPortsCount && i < old(inputPorts.Length) ==> inputPorts[i] == old(inputPorts[i])
      ensures inputPortsCount >= 1 && old(inputPorts) != null ==>
                forall i :: old(inputPorts.Length) <= i < inputPortsCount ==>
                  inputPorts[i] != null && fresh(inputPorts[i]) && inputPorts[i].network == network
                  && inputPorts[i] in network.vertices && inputPorts[i].signalChannel != null
      ensures network != null && (inputPortsCount < 1 || (old(inputPorts) != null && inputPortsCount <= old(inputPorts.Length))) ==>
                unchanged(network)
      ensures network != null && inputPortsCount >= 1 && (old(inputPorts) == null || inputPortsCount > old(inputPorts.Length)) ==>
                network.Valid() && old(network.vertices) <= network.vertices && network.wires == old(network.wires)
    {
      if inputPortsCount < 1 {
        return;
      }
      var previous := inputPorts;
      if previous == null {
        previous := new Port?[0];
      }
      inputPorts := Resized(previous, inputPortsCount, network);
    }

    /**
     * The resize loop of `SetInputChannelCount`: slots below the old size
     * keep their port, every other slot gets a new port of `graph`.
     */
    static method Resized(previous: array<Port?>, count: nat, graph: SignalNetworkGraph?) returns (ports: array<Port?>)
      requires count > previous.Length ==> graph != null && graph.Valid()
      modifies graph
      ensures fresh(ports) && ports.Length == count
      ensures forall i :: 0 <= i < count && i < previous.Length ==> ports[i] == previous[i]
      ensures forall i :: previous.Length <= i < count ==>
                ports[i] != null && fresh(ports[i]) && ports[i].network == graph
                && ports[i] in graph.vertices && ports[i].signalChannel != null
      ensures graph != null && count <= previous.Length ==> unchanged(graph)
      ensures graph != null && count > previous.Length ==>
                graph.Valid() && old(graph.vertices) <= graph.vertices && graph.wires == old(graph.wires)
                && forall p :: p in graph.vertices && p !in old(graph.vertices) ==> fresh(p)
    {
      ports := new Port?[count](_ => null);
      for i := 0 to count
        invariant graph != null && count > previous.Length ==> graph.Valid()
        invariant graph != null ==> old(graph.vertices) <= graph.vertices && graph.wires == old(graph.wires)
        invariant graph != null ==> forall p :: p in graph.vertices && p !in old(graph.vertices) ==> fresh(p)
        invariant graph != null && i <= previous.Length ==> unchanged(graph)
        invariant forall j :: 0 <= j < i && j < previous.Length ==> ports[j] == previous[j]
        invariant forall j :: previous.Length <= j < i ==>
                    ports[j] != null && fresh(ports[j]) && ports[j].network == graph
                    && ports[j] in graph.vertices && ports[j].signalChannel != null
      {
        FillSlot(ports, previous, i, graph);
      }
    }

    /** One turn of the resize loop: slot `i` keeps the old port below the old size, and gets a new port of `graph` from there on. */
    static method FillSlot(ports: array<Port?>, previous: array<Port?>, i: nat, graph: SignalNetworkGraph?)
      requires ports != previous && i < ports.Length
      requires i >= previous.Length ==> graph != null && graph.Valid()
      modifies ports, graph
      ensures forall j :: 0 <= j < ports.Length && j != i ==> ports[j] == old(ports[j])
      ensures i < previous.Length ==> ports[i] == previous[i] && (graph != null ==> unchanged(graph))
      ensures i >= previous.Length ==>
                && ports[i] != null && fresh(ports[i]) && ports[i].network == graph && ports[i].signalChannel != null
                && graph.Valid() && graph.vertices == old(graph.vertices) + {ports[i]} && graph.wires == old(graph.wires)
    {
      if i < previous.Length {
        ports[i] := previous[i];
      } else {
        var port := new Port(graph);
        ports[i] := port;
      }
    }

    /** A delay below 1 is refused and the queue kept; otherwise the queue becomes `delayTicks` zeros. */
    method SetOutputDelay(delayTicks: int)
      modifies this`outputQueue
      ensures delayTicks < 1 ==> outputQueue == old(outputQueue)
      ensures delayTicks >= 1 ==> outputQueue == Zeros(delayTicks)
    {
      if delayTicks < 1 {
        return;
      }
      outputQueue := [];
      for i := 0 to delayTicks
        invariant outputQueue == Zeros(i)
      {
        outputQueue := outputQueue + [0];
      }
    }

    predicate IsInputChained()
      reads this`chainedInputProcessor
    {
      chainedInputProcessor != null
    }

    predicate IsOutputChained()
      reads this`chainedOutputProcessor
    {
      chainedOutputProcessor != null
    }

    /**
     * Links `inputProcessor`'s output straight to this processor's first
     * input. Already input-chained makes the source throw; the model returns
     * false then and changes nothing. Otherwise both ports leave their
     * network (`graph`) and share a fresh channel that it does not track.
     */
    method Chain(inputProcessor: Processor, ghost graph: SignalNetworkGraph) returns (ok: bool)
      requires inputPorts != null && inputPorts.Length > 0 && inputPorts[0] != null && inputProcessor.outputPort != null
      requires inputPorts[0] != inputProcessor.outputPort
      requires graph.Valid() && inputPorts[0].network == graph && inputProcessor.outputPort.network == graph
      requires inputPorts[0] in graph.vertices && inputProcessor.outputPort in graph.vertices
      modifies this`chainedInputProcessor, inputProcessor`chainedOutputProcessor
      modifies graph`vertices, graph`wires, graph`signalChannels, graph.vertices`signalChannel
      ensures ok <==> old(chainedInputProcessor) == null
      ensures !ok ==> unchanged(this, inputProcessor, graph) && unchanged(old(graph.vertices))
      ensures ok ==> chainedInputProcessor == inputProcessor && inputProcessor.chainedOutputProcessor == this
      ensures ok ==> graph.Valid() && graph.vertices == old(graph.vertices) - {inputPorts[0], inputProcessor.outputPort}
      ensures ok ==> forall w :: w in graph.wires ==>
                       graph.wires[w].source !in {inputPorts[0], inputProcessor.outputPort}
                       && graph.wires[w].target !in {inputPorts[0], inputProcessor.outputPort}
      ensures ok ==> inputPorts[0].signalChannel != null && fresh(inputPorts[0].signalChannel)
                     && inputProcessor.outputPort.signalChannel == inputPorts[0].signalChannel
                     && inputPorts[0].signalChannel !in graph.signalChannels
    {
      if IsInputChained() {
        return false;
      }
      chainedInputProcessor := inputProcessor;
      inputProcessor.chainedOutputProcessor := this;
      Detach(inputPorts[0], inputProcessor.outputPort, graph);
      ok := true;
    }

    /** The port half of `Chain`: both ports leave `graph` and share a fresh channel it does not track. */
    static method Detach(first: Port, upstream: Port, ghost graph: SignalNetworkGraph)
      requires first != upstream && graph.Valid() && first.network == graph && upstream.network == graph
      requires first in graph.vertices && upstream in graph.vertices
      modifies graph`vertices, graph`wires, graph`signalChannels, graph.vertices`signalChannel
      ensures graph.Valid() && graph.vertices == old(graph.vertices) - {first, upstream}
      ensures forall w :: w in graph.wires ==>
                graph.wires[w].source !in {first, upstream} && graph.wires[w].target !in {first, upstream}
      ensures first.signalChannel != null && fresh(first.signalChannel)
              && upstream.signalChannel == first.signalChannel && first.signalChannel !in graph.signalChannels
    {
      DisconnectBoth(first, upstream, graph);
      var signalChannel := new SignalChannel();
      first.network.SetOutside(first, signalChannel);
      first.network.SetOutside(upstream, signalChannel);
    }

    /** `first`, then `upstream`, leaves `graph` with every wire on it. */
    static method DisconnectBoth(first: Port, upstream: Port, ghost graph: SignalNetworkGraph)
      requires first != upstream && graph.Valid() && first.network == graph && upstream.network == graph
      requires first in graph.vertices && upstream in graph.vertices
      modifies graph`vertices, graph`wires, graph`signalChannels, graph.vertices`signalChannel
      ensures graph.Valid() && graph.vertices == old(graph.vertices) - {first, upstream}
      ensures forall w :: w in graph.wires ==>
                graph.wires[w].source !in {first, upstream} && graph.wires[w].target !in {first, upstream}
    {
      first.Disconnect();
      upstream.Disconnect();
    }

    /**
     * Undoes `Chain`. Not input-chained makes the source throw; the model
     * returns false then and changes nothing. Otherwise both ports join
     * their network (`graph`) again, each with a fresh channel of its own
     * as any new legacy vertex, and both links are cleared.
     */
    method Unchain(ghost graph: SignalNetworkGraph) returns (ok: bool)
      requires chainedInputProcessor != null ==>
                 && inputPorts != null && inputPorts.Length > 0 && inputPorts[0] != null
                 && chainedInputProcessor.outputPort != null && inputPorts[0] != chainedInputProcessor.outputPort
                 && graph.Valid() && inputPorts[0].network == graph && chainedInputProcessor.outputPort.network == graph
                 && inputPorts[0] !in graph.vertices && chainedInputProcessor.outputPort !in graph.vertices
      modifies this`chainedInputProcessor, (if chainedInputProcessor != null then {chainedInputProcessor} else {})`chainedOutputProcessor
      modifies graph`vertices, graph`signalChannels
      modifies (if chainedInputProcessor != null then {inputPorts[0], chainedInputProcessor.outputPort} else {})`signalChannel
      ensures ok <==> old(chainedInputProcessor) != null
      ensures !ok ==> unchanged(this, graph)
      ensures ok ==> chainedInputProcessor == null && old(chainedInputProcessor).chainedOutputProcessor == null
      ensures ok ==> graph.Valid() && graph.vertices == old(graph.vertices) + {inputPorts[0], old(chainedInputProcessor).outputPort}
      ensures ok ==> graph.wires == old(graph.wires)
      ensures ok ==> var first, upstream := inputPorts[0], old(chainedInputProcessor).outputPort;
                     && first.signalChannel != null && fresh(first.signalChannel)
                     && upstream.signalChannel != null && fresh(upstream.signalChannel)
                     && first.signalChannel != upstream.signalChannel
                     && graph.signalChannels == old(graph.signalChannels) + [upstream.signalChannel, first.signalChannel]
    {
      if !IsInputChained() {
        return false;
      }
      var upstream := chainedInputProcessor;
      Attach(inputPorts[0], upstream.outputPort, graph);
      Unlink(this, upstream);
      ok := true;
    }

    /** The link half of `Unchain`: `up` no longer feeds `down`. */
    static method Unlink(down: Processor, up: Processor)
      modifies down`chainedInputProcessor, up`chainedOutputProcessor
      ensures down.chainedInputProcessor == null && up.chainedOutputProcessor == null
    {
      up.chainedOutputProcessor := null;
      down.chainedInputProcessor := null;
    }

    /** The port half of `Unchain`: the upstream output port, then the first input, join `graph` again with fresh channels. */
    static method Attach(first: Port, upstream: Port, ghost graph: SignalNetworkGraph)
      requires first != upstream && graph.Valid() && first.network == graph && upstream.network == graph
      requires first !in graph.vertices && upstream !in graph.vertices
      modifies graph`vertices, graph`signalChannels, first`signalChannel, upstream`signalChannel
      ensures graph.Valid() && graph.vertices == old(graph.vertices) + {first, upstream} && graph.wires == old(graph.wires)
      ensures first.signalChannel != null && fresh(first.signalChannel)
      ensures upstream.signalChannel != null && fresh(upstream.signalChannel)
      ensures first.signalChannel != upstream.signalChannel
      ensures graph.signalChannels == old(graph.signalChannels) + [upstream.signalChannel, first.signalChannel]
    {
      upstream.Connect();
      first.Connect();
    }

    /**
     * Unchains the processor this one feeds. Throws, here false with nothing
     * changed, when the output is not chained or the downstream processor's
     * input is not.
     */
    method UnchainOutput(ghost graph: SignalNetworkGraph) returns (ok: bool)
      requires chainedOutputProcessor != null && chainedOutputProcessor.chainedInputProcessor != null ==>
                 var down := chainedOutputProcessor;
                 && down.inputPorts != null && down.inputPorts.Length > 0 && down.inputPorts[0] != null
                 && down.chainedInputProcessor.outputPort != null && down.inputPorts[0] != down.chainedInputProcessor.outputPort
                 && graph.Valid() && down.inputPorts[0].network == graph && down.chainedInputProcessor.outputPort.network == graph
                 && down.inputPorts[0] !in graph.vertices && down.chainedInputProcessor.outputPort !in graph.vertices
      modifies (if chainedOutputProcessor != null then {chainedOutputProcessor} else {})`chainedInputProcessor
      modifies (if chainedOutputProcessor != null && chainedOutputProcessor.chainedInputProcessor != null
                then {chainedOutputProcessor.chainedInputProcessor} else {})`chainedOutputProcessor
      modifies graph`vertices, graph`signalChannels
      modifies (if chainedOutputProcessor != null && chainedOutputProcessor.chainedInputProcessor != null
                then {chainedOutputProcessor.inputPorts[0], chainedOutputProcessor.chainedInputProcessor.outputPort} else {})`signalChannel
      ensures ok <==> old(chainedOutputProcessor) != null && old(chainedOutputProcessor.chainedInputProcessor) != null
      ensures ok ==> old(chainedOutputProcessor).chainedInputProcessor == null
      ensures ok ==> old(chainedOutputProcessor.chainedInputProcessor).chainedOutputProcessor == null
      ensures ok ==> var first, upstream := old(chainedOutputProcessor.inputPorts[0]), old(chainedOutputProcessor.chainedInputProcessor.outputPort);
                     && graph.Valid() && graph.vertices == old(graph.vertices) + {first, upstream} && graph.wires == old(graph.wires)
                     && first.signalChannel != null && fresh(first.signalChannel)
                     && upstream.signalChannel != null && fresh(upstream.signalChannel)
                     && first.signalChannel != upstream.signalChannel
                     && graph.signalChannels == old(graph.signalChannels) + [upstream.signalChannel, first.signalChannel]
      ensures !ok ==> unchanged(graph)
    {
      if !IsOutputChained() {
        return false;
      }
      ok := chainedOutputProcessor.Unchain(graph);
    }

    /**
     * One tick of the delay register: the oldest queued signal is written
     * to the output port and the last computed one joins the queue, so the
     * queue keeps its length. A chained output skips the register.
     */
    method AdvanceOutputQueue()
      requires !IsOutputChained() ==> |outputQueue| > 0 && outputPort != null && outputPort.signalChannel != null
      modifies this`outputQueue, if !IsOutputChained() then {outputPort.signalChannel} else {}
      ensures IsOutputChained() ==> outputQueue == old(outputQueue)
      ensures !IsOutputChained() ==> outputQueue == old(outputQueue[1..]) + [processedSignal]
      ensures |outputQueue| == |old(outputQueue)|
      ensures !IsOutputChained() ==>
                outputPort.signalChannel.signal == Max(old(outputPort.signalChannel.signal), old(outputQueue[0]))
    {
      if IsOutputChained() {
        return;
      }
      outputPort.Write(outputQueue[0]);
      outputQueue := outputQueue[1..] + [processedSignal];
    }
  }
}
