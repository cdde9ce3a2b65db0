/**
 * The namespace `Structures`: a second copy of the logic-signal network
 * (`SignalNetworkGraph`, `SignalChannel` and its own `Port`), the same
 * algorithm as the live one in namespace `Signals` and kept under the same
 * invariant, plus the devices that sit on it. A `Sensor` writes a reading
 * into its output port, an `Actuator` reads its input ports in order, and a
 * `Processor` computes one of the gate functions of its inputs and either
 * holds the result in an output delay queue or, chained to a processor in
 * front of it, passes it on through a private channel within the same tick.
 */
module Structures {
  import opened PortGraphs
  import opened Lists
  import Gates

  /** A wire is a game object; the network only uses its identity as an edge tag. */
  class Wire { }

  function Max(a: int, b: int): int
  {
    if a >= b then a else b
  }

  /** `List<SignalChannel>.Remove`: the list never holds null, so removing null leaves it as it is. */
  function Remove(list: seq<SignalChannel>, c: SignalChannel?): seq<SignalChannel>
  {
    if c == null then list else var d: SignalChannel := c; RemoveFirst(list, d)
  }

  /** A shared signal line: writers combine by maximum until the next reset. */
  class SignalChannel {
    var signal: int

    constructor ()
      ensures signal == 0
    {
      signal := 0;
    }

    method Reset()
      modifies this`signal
      ensures signal == 0
    {
      signal := 0;
    }

    /** Max-combine: the stored value never goes down and covers `s`. */
    method Write(s: int)
      modifies this`signal
      ensures signal >= old(signal) && signal >= s
      ensures signal == old(signal) || signal == s
    {
      signal := Max(signal, s);
    }

    function Read(): int
      reads this`signal
    {
      signal
    }
  }

  class Port {
    /** The Unity instance id, fixed for the object's life. */
    const id: int
    var network: SignalNetworkGraph?
    var signalChannel: SignalChannel?

    constructor (id: int)
      ensures this.id == id && network == null && signalChannel == null
    {
      this.id := id;
      network := null;
      signalChannel := null;
    }

    predicate IsConnected()
      reads this`signalChannel
    {
      signalChannel != null
    }

    /**
     * Joins `graph`. A port already in a network makes it throw; the model
     * returns false then and changes nothing.
     */
    method AddToNetwork(graph: SignalNetworkGraph) returns (ok: bool)
      requires graph.Valid()
      modifies this, graph
      ensures graph.Valid()
      ensures ok <==> old(network) == null
      ensures !ok ==> unchanged(this, graph)
      ensures ok ==> network == graph && graph.vertices == old(graph.vertices) + {this}
      ensures ok ==> graph.wires == old(graph.wires) && graph.signalChannels == old(graph.signalChannels)
      ensures ok && this !in old(graph.vertices) ==> signalChannel == null
      ensures ok && this in old(graph.vertices) ==> signalChannel == old(signalChannel)
    {
      if network != null {
        return false;
      }
      network := graph;
      graph.AddPort(this);
      ok := true;
    }

    /** Leaves the network it is in: every wire on it is disconnected and the vertex removed. */
    method RemoveFromNetwork()
      requires network != null && network.Valid() && this in network.vertices
      modifies this, network, network.vertices`signalChannel
      ensures network == null
      ensures old(network).Valid() && old(network).vertices == old(network.vertices) - {this}
      ensures forall w :: w in old(network).wires ==> old(network).wires[w].source != this && old(network).wires[w].target != this
    {
      network.RemovePort(this);
      network := null;
    }

    /** Writes into the channel, if any; without one the frame is empty. */
    method Write(signal: int)
      modifies {signalChannel}`signal
      ensures signalChannel != null ==> signalChannel.signal >= old(signalChannel.signal) && signalChannel.signal >= signal
      ensures signalChannel != null ==> signalChannel.signal == old(signalChannel.signal) || signalChannel.signal == signal
    {
      if signalChannel == null {
        return;
      }
      signalChannel.Write(signal);
    }

    function Read(): (r: int)
      reads this`signalChannel, {signalChannel}`signal
      ensures !IsConnected() ==> r == 0
    {
      if IsConnected() then signalChannel.Read() else 0
    }

    /** Clears the channel, if any; without one the frame is empty. */
    method Reset()
      modifies {signalChannel}`signal
      ensures Read() == 0
    {
      if signalChannel == null {
        return;
      }
      signalChannel.Reset();
    }

    /** Orders ports by instance id. */
    function CompareTo(other: Port): (r: int)
      ensures r < 0 <==> id < other.id
      ensures r == 0 <==> id == other.id
      ensures r > 0 <==> id > other.id
    {
      if id < other.id then -1 else if id > other.id then 1 else 0
    }
  }

  class SignalNetworkGraph {
    var vertices: set<Port>
    /** Each wire tags one undirected edge; the graph's edges are exactly these. */
    var wires: map<Wire, Edge<Port>>
    var signalChannels: seq<SignalChannel>

    /** The channel of every vertex (null for none). */
    ghost function Channels(): (r: map<Port, SignalChannel?>)
      reads this`vertices, vertices`signalChannel
      ensures r.Keys == vertices
    {
      map p | p in vertices :: p.signalChannel
    }

    /**
     * The network invariant over the current state, and every stored
     * edge has its lower-id end as source.
     */
    ghost predicate Valid()
      reads this`vertices, this`wires, this`signalChannels, vertices`signalChannel
    {
      NetworkInvariant(wires, Channels(), signalChannels, null) && Ordered(wires)
    }

    static ghost predicate Ordered(wires: map<Wire, Edge<Port>>)
    {
      forall w :: w in wires ==> wires[w].source.id <= wires[w].target.id
    }

    /** The edge `ConnectWire` stores: the two ports, the lower-id one as source (`port1` on a tie). */
    static function OrderedEdge(port1: Port, port2: Port): (e: Edge<Port>)
      ensures e.source.id <= e.target.id
      ensures (e.source == port1 && e.target == port2) || (e.source == port2 && e.target == port1)
      ensures port1.id == port2.id ==> e.source == port1
    {
      if port1.CompareTo(port2) > 0 then Edge(port2, port1) else Edge(port1, port2)
    }

    constructor ()
      ensures Valid() && vertices == {} && wires == map[] && signalChannels == []
    {
      vertices := {};
      wires := map[];
      signalChannels := [];
    }

    /** A new vertex starts without a channel; an existing one is left alone. */
    method AddPort(port: Port)
      requires Valid()
      modifies this`vertices, port`signalChannel
      ensures Valid()
      ensures vertices == old(vertices) + {port}
      ensures port in old(vertices) ==> port.signalChannel == old(port.signalChannel)
      ensures port !in old(vertices) ==> port.signalChannel == null
    {
      if port in vertices {
        return;
      }
      AddBarePortKeeps(wires, Channels(), signalChannels, null, port);
      ghost var before := Channels();
      vertices := vertices + {port};
      port.signalChannel := null;
      ChannelsAre(before[port := null]);
    }

    /** Reads the channel map back from the ports (kept apart: the map equality is costly next to `Valid`). */
    lemma ChannelsAre(m: map<Port, SignalChannel?>)
      requires vertices == m.Keys && forall p :: p in m ==> p.signalChannel == m[p]
      ensures Channels() == m
    {
    }

    /**
     * Disconnects every wire on `port` (over a snapshot of them, in any
     * order), drops its channel from the tracked list if it still has one,
     * and removes the vertex. Only ports of `port`'s component can change.
     */
    method RemovePort(port: Port)
      requires Valid() && port in vertices
      modifies this`vertices, this`wires, this`signalChannels, vertices`signalChannel
      ensures Valid()
      ensures vertices == old(vertices) - {port}
      ensures forall u :: u in wires <==> u in old(wires) && u !in Incident(old(wires), port)
      ensures forall u :: u in wires ==> wires[u] == old(wires)[u]
      ensures ChangedWithin(old(wires), old(Channels()), Channels(), port)
    {
      DisconnectAll(port);
      ghost var list0, before := signalChannels, Channels();
      var channel := port.signalChannel;
      signalChannels := if port.IsConnected() then Remove(signalChannels, channel) else signalChannels;
      RemoveIsolatedKeeps(wires, before, list0, null, port, signalChannels);
      vertices := vertices - {port};
      ChannelsAre(before - {port});
    }

    /**
     * `RemovePort` as the source writes it: the loop walks the live list of
     * `port`'s wires while `DisconnectWire` removes from that list, so the
     * enumeration throws as soon as one wire is gone. A port with wires
     * then keeps its vertex and all its wires but that first one.
     */
    method RemovePortAsWritten(port: Port) returns (thrown: bool)
      requires Valid() && port in vertices
      modifies this`vertices, this`wires, this`signalChannels, vertices`signalChannel
      ensures Valid()
      ensures thrown <==> Incident(old(wires), port) != {}
      ensures thrown ==> port in vertices && vertices == old(vertices)
      ensures thrown ==>
                exists w :: w in Incident(old(wires), port) && wires == old(wires) - {w}
      ensures !thrown ==> vertices == old(vertices) - {port} && wires == old(wires)
    {
      var edges := Incident(wires, port);
      if edges != {} {
        ghost var some := Member(edges);
        var w :| w in edges;
        DisconnectWire(w);
        return true;
      }
      RemovePort(port);
      return false;
    }

    /** The loop of `RemovePort`: disconnects each wire of a snapshot of `port`'s wires. */
    method DisconnectAll(port: Port)
      requires Valid() && port in vertices
      modifies this`wires, this`signalChannels, vertices`signalChannel
      ensures Valid() && Neighbors(wires, port) == {}
      ensures Remaining(old(wires), port, {}, wires)
      ensures ChangedWithin(old(wires), old(Channels()), Channels(), port)
    {
      var edges := Incident(wires, port);
      ghost var wires0, chans0 := wires, Channels();
      while edges != {}
        invariant Valid()
        invariant edges <= Incident(wires0, port) && Remaining(wires0, port, edges, wires)
        invariant ChangedWithin(wires0, chans0, Channels(), port)
        decreases edges
      {
        ghost var some := Member(edges);
        var w :| w in edges;
        ghost var edgesBefore, wiresBefore, chansBefore := edges, wires, Channels();
        edges := edges - {w};
        DisconnectWire(w);
        RemainingStep(wires0, port, edgesBefore, w, wiresBefore, wires);
        ChangedWithinStep(wires0, wiresBefore, w, port, chans0, chansBefore, Channels());
      }
      RemainingNone(wires0, port, wires);
    }

    /**
     * The wires left while `RemovePort` works through the snapshot of
     * `port`'s wires: the other wires, and the snapshot's `edges` not yet
     * disconnected.
     */
    static ghost predicate Remaining(wires0: map<Wire, Edge<Port>>, port: Port, edges: set<Wire>, wires: map<Wire, Edge<Port>>)
    {
      && (forall u :: u in wires ==> u in wires0 && (u !in Incident(wires0, port) || u in edges))
      && (forall u :: u in wires0 && (u !in Incident(wires0, port) || u in edges) ==> u in wires)
      && (forall u :: u in wires ==> wires[u] == wires0[u])
    }

    /** Once the snapshot is used up, `port` has no wire left. */
    static lemma RemainingNone(wires0: map<Wire, Edge<Port>>, port: Port, wires: map<Wire, Edge<Port>>)
      requires Remaining(wires0, port, {}, wires)
      ensures Neighbors(wires, port) == {}
    {
      assert Incident(wires, port) == {};
      IncidentNeighbors(wires, port);
    }

    static lemma RemainingStep(wires0: map<Wire, Edge<Port>>, port: Port, edges: set<Wire>, w: Wire,
                               wires: map<Wire, Edge<Port>>, wires': map<Wire, Edge<Port>>)
      requires edges <= Incident(wires0, port) && Remaining(wires0, port, edges, wires)
      requires w in edges && wires' == wires - {w}
      ensures Remaining(wires0, port, edges - {w}, wires')
    {
    }

    /**
     * Gives `port1`'s whole component and `port2`'s whole component one
     * channel: `port1`'s if it has one, else `port2`'s, else a fresh one;
     * then adds the wire, its lower-id end as source.
     */
    method ConnectWire(wire: Wire, port1: Port, port2: Port)
      requires Valid()
      requires port1 in vertices && port2 in vertices && wire !in wires
      modifies this`wires, this`signalChannels, vertices`signalChannel
      ensures Valid()
      ensures wires == old(wires)[wire := OrderedEdge(port1, port2)]
      ensures port1.signalChannel != null && port2.signalChannel == port1.signalChannel
      ensures Channels() == Joined(old(wires), old(Channels()), port1, port2, port1.signalChannel)
      ensures old(port1.signalChannel) != null ==>
                port1.signalChannel == old(port1.signalChannel)
                && signalChannels == Remove(old(signalChannels), old(port2.signalChannel)) + [port1.signalChannel]
      ensures old(port1.signalChannel) == null && old(port2.signalChannel) != null ==>
                port1.signalChannel == old(port2.signalChannel)
                && signalChannels == old(signalChannels) + [port1.signalChannel]
      ensures old(port1.signalChannel) == null && old(port2.signalChannel) == null ==>
                fresh(port1.signalChannel)
                && signalChannels == old(signalChannels) + if port1 == port2 then [port1.signalChannel] else [port1.signalChannel, port1.signalChannel]
    {
      var edge := OrderedEdge(port1, port2);
      JoinChannels(port1, port2, wire, edge);
      OrderedAdd(wires, wire, edge);
      AddEdge(wire, edge);
    }

    /** Records the wire; the channels stay as they are. */
    method AddEdge(wire: Wire, edge: Edge<Port>)
      modifies this`wires
      ensures wires == old(wires)[wire := edge] && Channels() == old(Channels())
    {
      wires := wires[wire := edge];
    }

    /** The channel half of `ConnectWire`, before the wire `edge` is added. */
    method JoinChannels(port1: Port, port2: Port, ghost wire: Wire, ghost edge: Edge<Port>)
      requires Valid() && port1 in vertices && port2 in vertices && wire !in wires
      requires (edge.source == port1 && edge.target == port2) || (edge.source == port2 && edge.target == port1)
      modifies this`signalChannels, vertices`signalChannel
      ensures NetworkInvariant(wires[wire := edge], Channels(), signalChannels, null)
      ensures port1.signalChannel != null && port2.signalChannel == port1.signalChannel
      ensures Channels() == Joined(wires, old(Channels()), port1, port2, port1.signalChannel)
      ensures old(port1.signalChannel) != null ==>
                port1.signalChannel == old(port1.signalChannel)
                && signalChannels == Remove(old(signalChannels), old(port2.signalChannel)) + [port1.signalChannel]
      ensures old(port1.signalChannel) == null && old(port2.signalChannel) != null ==>
                port1.signalChannel == old(port2.signalChannel)
                && signalChannels == old(signalChannels) + [port1.signalChannel]
      ensures old(port1.signalChannel) == null && old(port2.signalChannel) == null ==>
                fresh(port1.signalChannel)
                && signalChannels == old(signalChannels) + if port1 == port2 then [port1.signalChannel] else [port1.signalChannel, port1.signalChannel]
    {
      if port1.signalChannel != null {
        ShareChannel(port2, port1, wire, edge);
      } else if port2.signalChannel != null {
        ShareChannel(port1, port2, wire, edge);
      } else {
        ShareNewChannel(port1, port2, wire, edge);
      }
    }

    /**
     * The branches of `ConnectWire` where `keep` already has a channel:
     * `start`'s component takes it, and `start`'s old channel leaves the
     * tracked list once. Then the wire `edge` can join the two.
     */
    method ShareChannel(start: Port, keep: Port, ghost wire: Wire, ghost edge: Edge<Port>)
      requires Valid() && start in vertices && keep in vertices && wire !in wires
      requires keep.signalChannel != null
      requires (edge.source == start && edge.target == keep) || (edge.source == keep && edge.target == start)
      modifies this`signalChannels, vertices`signalChannel
      ensures NetworkInvariant(wires[wire := edge], Channels(), signalChannels, null)
      ensures keep.signalChannel == old(keep.signalChannel) && start.signalChannel == keep.signalChannel
      ensures Channels() == Joined(wires, old(Channels()), start, keep, keep.signalChannel)
                         == Joined(wires, old(Channels()), keep, start, keep.signalChannel)
      ensures signalChannels == Remove(old(signalChannels), old(start.signalChannel)) + [keep.signalChannel]
    {
      ghost var chans0, list0 := Channels(), signalChannels;
      WellFormedEnds(wires, chans0, wire);
      AssignSignalChannelBFS(start, keep.signalChannel, true);
      TrackedAfterRemove(list0, chans0[start], [keep.signalChannel]);
      ConnectChannelled(wires, chans0, list0, null, start, keep, Channels(), signalChannels, wire, edge);
    }

    /** The branch of `ConnectWire` where neither port has a channel: both take a fresh one. */
    method ShareNewChannel(port1: Port, port2: Port, ghost wire: Wire, ghost edge: Edge<Port>)
      requires Valid() && port1 in vertices && port2 in vertices && wire !in wires
      requires port1.signalChannel == null && port2.signalChannel == null
      requires (edge.source == port1 && edge.target == port2) || (edge.source == port2 && edge.target == port1)
      modifies this`signalChannels, vertices`signalChannel
      ensures NetworkInvariant(wires[wire := edge], Channels(), signalChannels, null)
      ensures port1.signalChannel != null && fresh(port1.signalChannel) && port2.signalChannel == port1.signalChannel
      ensures Channels() == Joined(wires, old(Channels()), port1, port2, port1.signalChannel)
      ensures signalChannels == old(signalChannels) + if port1 == port2 then [port1.signalChannel] else [port1.signalChannel, port1.signalChannel]
    {
      ghost var chans0, list0 := Channels(), signalChannels;
      var c := new SignalChannel();
      AssignSignalChannelBFS(port1, c, true);
      ghost var chans1, list1 := Channels(), signalChannels;
      AssignSignalChannelBFS(port2, port1.signalChannel, true);
      FreshTwice(list0, list1, signalChannels, c, chans1[port2], port1 == port2);
      ConnectFresh(wires, chans0, list0, null, port1, port2, c, Channels(), signalChannels, wire, edge);
    }

    /** The tracked list of `ShareNewChannel`: the fresh channel joins once per port. */
    static lemma FreshTwice(list0: seq<SignalChannel>, list1: seq<SignalChannel>, list2: seq<SignalChannel>, c: SignalChannel, old2: SignalChannel?, same: bool)
      requires c !in list0
      requires list1 == Remove(list0, null) + [c] && list2 == Remove(list1, old2) + [c]
      requires if same then old2 == c else old2 == null
      ensures list2 == list0 + if same then [c] else [c, c]
    {
      if same {
        RemoveFirstAt(list1, c, |list0|);
        assert list1[..|list0|] == list0;
      }
    }

    static lemma OrderedAdd(wires: map<Wire, Edge<Port>>, wire: Wire, edge: Edge<Port>)
      requires Ordered(wires) && edge.source.id <= edge.target.id
      ensures Ordered(wires[wire := edge])
    {
    }

    /** After `Remove(list, c)`, every other channel of `list` is still tracked. */
    static lemma TrackedAfterRemove(list: seq<SignalChannel>, c: SignalChannel?, more: seq<SignalChannel>)
      ensures forall d :: d in list && d != c ==> d in Remove(list, c) + more
    {
      forall d | d in list && d != c
        ensures d in Remove(list, c) + more
      {
        if c != null {
          var e: SignalChannel := c;
          RemoveFirstKeeps(list, e, d);
          assert Remove(list, c) == RemoveFirst(list, e);
        }
        assert d in Remove(list, c);
      }
    }

    /**
     * Removes a known wire and repairs the channels: both ends still wired
     * gives `port1`'s side a fresh channel (the old one stays tracked); one
     * end left bare loses its channel; both bare lose theirs and `port1`'s
     * old channel leaves the tracked list once. An unknown wire is ignored.
     */
    method DisconnectWire(wire: Wire)
      requires Valid()
      modifies this`wires, this`signalChannels, vertices`signalChannel
      ensures Valid()
      ensures wire !in old(wires) ==> wires == old(wires) && signalChannels == old(signalChannels) && Channels() == old(Channels())
      ensures wire in old(wires) ==> wires == old(wires) - {wire}
      ensures wire in old(wires) ==> ChangedWithin(old(wires), old(Channels()), Channels(), old(wires)[wire].source)
      ensures wire in old(wires) ==>
                var s, t := old(wires)[wire].source, old(wires)[wire].target;
                && (Neighbors(wires, s) != {} && Neighbors(wires, t) != {} ==>
                      s.signalChannel != null && fresh(s.signalChannel)
                      && signalChannels == old(signalChannels) + [s.signalChannel]
                      && Flooded(wires, old(Channels()), s, s.signalChannel, Channels()))
                && (Neighbors(wires, s) != {} && Neighbors(wires, t) == {} ==>
                      signalChannels == old(signalChannels) && Channels() == old(Channels())[t := null])
                && (Neighbors(wires, s) == {} && Neighbors(wires, t) != {} ==>
                      signalChannels == old(signalChannels) && Channels() == old(Channels())[s := null])
                && (Neighbors(wires, s) == {} && Neighbors(wires, t) == {} ==>
                      signalChannels == Remove(old(signalChannels), old(s.signalChannel))
                      && Channels() == old(Channels())[s := null][t := null])
    {
      if wire !in wires {
        return;
      }
      var edge := wires[wire];
      var port1, port2 := edge.source, edge.target;
      var rest := wires - {wire};
      IncidentNeighbors(rest, port1);
      IncidentNeighbors(rest, port2);
      var port1Connected := Incident(rest, port1) != {};
      var port2Connected := Incident(rest, port2) != {};
      if port1Connected && port2Connected {
        ghost var u1 := Member(Incident(rest, port1));
        ghost var u2 := Member(Incident(rest, port2));
        SplitChannel(wire, port1, port2, u1, u2);
      } else if port1Connected {
        ghost var u := Member(Incident(rest, port1));
        DropChannel(wire, port1, port2, u);
      } else if port2Connected {
        ghost var u := Member(Incident(rest, port2));
        DropChannel(wire, port2, port1, u);
      } else {
        DropBothChannels(wire, port1, port2);
      }
    }

    /** Forgets the wire; the channels stay as they are. */
    method RemoveEdge(wire: Wire)
      modifies this`wires
      ensures wires == old(wires) - {wire} && Channels() == old(Channels())
      ensures Ordered(old(wires)) ==> Ordered(wires)
    {
      wires := wires - {wire};
    }

    /**
     * `DisconnectWire` when both ends keep other wires: the source's side
     * floods with a new channel, which joins the tracked list.
     */
    method SplitChannel(wire: Wire, port1: Port, port2: Port, ghost u1: Wire, ghost u2: Wire)
      requires Valid() && wire in wires && port1 == wires[wire].source && port2 == wires[wire].target
      requires u1 in Incident(wires - {wire}, port1) && u2 in Incident(wires - {wire}, port2)
      modifies this`wires, this`signalChannels, vertices`signalChannel
      ensures Valid() && wires == old(wires) - {wire}
      ensures ChangedWithin(old(wires), old(Channels()), Channels(), port1)
      ensures port1.signalChannel != null && fresh(port1.signalChannel)
              && signalChannels == old(signalChannels) + [port1.signalChannel]
              && Flooded(wires, old(Channels()), port1, port1.signalChannel, Channels())
    {
      ghost var wires0, chans0, list0 := wires, Channels(), signalChannels;
      WellFormedEnds(wires0, chans0, wire);
      RemoveEdge(wire);
      var c := new SignalChannel();
      AssignSignalChannelBFS(port1, c, false);
      DisconnectSplit(wires0, chans0, list0, null, wire, c, Channels(), signalChannels, u1, u2);
    }

    /**
     * `DisconnectWire` when only `keep` has other wires: `drop` loses its
     * channel and the tracked list stays.
     */
    method DropChannel(wire: Wire, keep: Port, drop: Port, ghost u: Wire)
      requires Valid() && wire in wires
      requires (keep == wires[wire].source && drop == wires[wire].target) || (keep == wires[wire].target && drop == wires[wire].source)
      requires u in Incident(wires - {wire}, keep) && Neighbors(wires - {wire}, drop) == {}
      modifies this`wires, this`signalChannels, vertices`signalChannel
      ensures Valid() && wires == old(wires) - {wire}
      ensures ChangedWithin(old(wires), old(Channels()), Channels(), old(wires)[wire].source)
      ensures signalChannels == old(signalChannels) && Channels() == old(Channels())[drop := null]
    {
      ghost var wires0, chans0, list0 := wires, Channels(), signalChannels;
      RemoveEdge(wire);
      AssignSignalChannelBFS(drop, null, false);
      DisconnectDropOne(wires0, chans0, list0, null, wire, keep, drop, u);
    }

    /**
     * `DisconnectWire` when neither end has other wires: both lose their
     * channel, and `port1`'s old one leaves the tracked list (one copy).
     */
    method DropBothChannels(wire: Wire, port1: Port, port2: Port)
      requires Valid() && wire in wires && port1 == wires[wire].source && port2 == wires[wire].target
      requires Neighbors(wires - {wire}, port1) == {} && Neighbors(wires - {wire}, port2) == {}
      modifies this`wires, this`signalChannels, vertices`signalChannel
      ensures Valid() && wires == old(wires) - {wire}
      ensures ChangedWithin(old(wires), old(Channels()), Channels(), port1)
      ensures signalChannels == Remove(old(signalChannels), old(port1.signalChannel))
      ensures Channels() == old(Channels())[port1 := null][port2 := null]
    {
      ghost var wires0, chans0, list0 := wires, Channels(), signalChannels;
      WellFormedEnds(wires0, chans0, wire);
      RemoveEdge(wire);
      AssignSignalChannelBFS(port1, null, true);
      AssignSignalChannelBFS(port2, null, false);
      TrackedAfterRemove(list0, chans0[port1], []);
      DisconnectDropBoth(wires0, chans0, list0, null, wire, signalChannels);
    }

    /**
     * Breadth-first flood fill: `signalChannel` lands on exactly the ports
     * reachable from `startPort`. First the old channel of `startPort` may
     * leave the tracked list (one copy) and a non-null new one joins it.
     */
    method AssignSignalChannelBFS(startPort: Port, signalChannel: SignalChannel?, removeOldChannel: bool)
      requires startPort in vertices && EndsIn(wires, vertices)
      modifies this`signalChannels, vertices`signalChannel
      ensures signalChannels == (if removeOldChannel then Remove(old(signalChannels), old(startPort.signalChannel)) else old(signalChannels))
                                + (if signalChannel != null then [signalChannel] else [])
      ensures Flooded(wires, old(Channels()), startPort, signalChannel, Channels())
      ensures startPort.signalChannel == signalChannel
      ensures Neighbors(wires, startPort) == {} ==> Channels() == old(Channels())[startPort := signalChannel]
    {
      Retrack(startPort.signalChannel, signalChannel, removeOldChannel);
      Flood(startPort, signalChannel);
    }

    /** The tracked-list half of the flood fill; no port changes. */
    method Retrack(oldChannel: SignalChannel?, signalChannel: SignalChannel?, removeOldChannel: bool)
      modifies this`signalChannels
      ensures signalChannels == (if removeOldChannel then Remove(old(signalChannels), oldChannel) else old(signalChannels))
                                + (if signalChannel != null then [signalChannel] else [])
      ensures Channels() == old(Channels())
    {
      if removeOldChannel {
        signalChannels := Remove(signalChannels, oldChannel);
      }
      if signalChannel != null {
        signalChannels := signalChannels + [signalChannel];
      }
    }

    /** The port half of the flood fill: a port without wires directly, else a breadth-first search. */
    method Flood(startPort: Port, signalChannel: SignalChannel?)
      requires startPort in vertices && EndsIn(wires, vertices)
      modifies vertices`signalChannel
      ensures Flooded(wires, old(Channels()), startPort, signalChannel, Channels())
      ensures startPort.signalChannel == signalChannel
      ensures Neighbors(wires, startPort) == {} ==> Channels() == old(Channels())[startPort := signalChannel]
    {
      ghost var before := Channels();
      ReachableSelf(wires, startPort);
      IncidentNeighbors(wires, startPort);
      if Incident(wires, startPort) == {} {
        startPort.signalChannel := signalChannel;
        forall p | p in vertices && Reachable(wires, startPort, p)
          ensures p == startPort
        {
          ReachableIsolated(wires, startPort, p);
        }
        ChannelsAre(before[startPort := signalChannel]);
        return;
      }
      ghost var component := Component(wires, vertices, startPort);
      forall x | x in component
        ensures Neighbors(wires, x) <= component
      {
        ComponentClosed(wires, vertices, startPort, x);
      }
      var reached := BreadthFirst(wires, vertices, startPort, component);
      ClosedIsComponent(wires, vertices, startPort, reached);
      SetChannel(reached, signalChannel);
    }

    /** The state of the flood fill's queue loop between two dequeues. */
    static ghost predicate Searching(wires: map<Wire, Edge<Port>>, vertices: set<Port>, startPort: Port, within: set<Port>,
                                     queue: seq<Port>, visited: set<Port>, reached: set<Port>)
    {
      && startPort in visited
      && (forall p :: p in visited ==> p in within && p in vertices)
      && (forall p :: p in reached ==> p in visited)
      && (forall q :: q in queue ==> q in visited)
      && (forall p :: p in visited ==> p in reached || p in queue)
      && (forall p, q :: p in reached && q in Neighbors(wires, p) ==> q in visited)
      && |visited| <= |vertices|
    }

    /**
     * The queue loop of the flood fill. The ports it dequeues hold
     * `startPort`, are closed under adjacency, and stay inside any set
     * `within` that has both properties: they are the least such set.
     */
    static method BreadthFirst(wires: map<Wire, Edge<Port>>, vertices: set<Port>, startPort: Port, ghost within: set<Port>)
      returns (reached: set<Port>)
      requires startPort in vertices && EndsIn(wires, vertices)
      requires startPort in within && forall x :: x in within ==> Neighbors(wires, x) <= within
      ensures startPort in reached && reached <= within && reached <= vertices
      ensures forall p :: p in reached ==> Neighbors(wires, p) <= reached
    {
      var queue := [startPort];
      var visited := {startPort};
      reached := {};
      while |queue| > 0
        invariant Searching(wires, vertices, startPort, within, queue, visited, reached)
        decreases |vertices| - |visited|, |queue|
      {
        queue, visited, reached := Dequeue(wires, vertices, startPort, within, queue, visited, reached);
      }
    }

    /** One turn of the queue loop: take the head, mark it reached, queue its unvisited neighbours. */
    static method Dequeue(wires: map<Wire, Edge<Port>>, vertices: set<Port>, startPort: Port, ghost within: set<Port>,
                          queue: seq<Port>, visited: set<Port>, reached: set<Port>)
      returns (queue': seq<Port>, visited': set<Port>, reached': set<Port>)
      requires EndsIn(wires, vertices) && forall x :: x in within ==> Neighbors(wires, x) <= within
      requires |queue| > 0 && Searching(wires, vertices, startPort, within, queue, visited, reached)
      ensures Searching(wires, vertices, startPort, within, queue', visited', reached')
      ensures reached' == reached + {queue[0]}
      ensures |visited'| > |visited| || (|visited'| == |visited| && |queue'| < |queue|)
    {
      var current := queue[0];
      queue' := queue[1..];
      reached' := reached + {current};
      NeighborsWithin(wires, vertices, current);
      queue', visited' := EnqueueNew(queue', visited, Neighbors(wires, current));
      SubsetNotLarger(visited', vertices);
    }

    /** Colours the ports `BreadthFirst` reached; the order does not matter. */
    static method SetChannel(reached: set<Port>, signalChannel: SignalChannel?)
      modifies reached`signalChannel
      ensures forall p :: p in reached ==> p.signalChannel == signalChannel
    {
      var rest := reached;
      while rest != {}
        invariant rest <= reached
        invariant forall p :: p in reached - rest ==> p.signalChannel == signalChannel
        decreases rest
      {
        var p :| p in rest;
        p.signalChannel := signalChannel;
        rest := rest - {p};
      }
    }

    /** The inner step of the flood fill: queue, in some order, each port of `next` not yet visited. */
    static method EnqueueNew(queue: seq<Port>, visited: set<Port>, next: set<Port>) returns (queue': seq<Port>, visited': set<Port>)
      ensures visited' == visited + next
      ensures forall q :: q in queue' <==> q in queue || q in next - visited
      ensures |queue'| - |queue| == |visited'| - |visited| >= 0
    {
      queue', visited' := queue, visited;
      var rest := next;
      while rest != {}
        invariant rest <= next
        invariant forall x :: x in visited' <==> x in visited || (x in next && x !in rest)
        invariant forall q :: q in queue' <==> q in queue || (q in next && q !in rest && q !in visited)
        invariant |queue'| - |queue| == |visited'| - |visited| >= 0
        decreases rest
      {
        var n :| n in rest;
        rest := rest - {n};
        if n !in visited' {
          AddOneMore(visited', n);
          queue' := queue' + [n];
          visited' := visited' + {n};
        }
      }
    }

    /** Clears every tracked channel; under the invariant every port then reads 0. */
    method ResetSignalChannels()
      modifies set c | c in signalChannels
      ensures forall c :: c in signalChannels ==> c.signal == 0
      ensures Valid() ==> forall p :: p in vertices ==> p.Read() == 0
    {
      var i := 0;
      while i < |signalChannels|
        invariant 0 <= i <= |signalChannels|
        invariant forall j :: 0 <= j < i ==> signalChannels[j].signal == 0
      {
        signalChannels[i].Reset();
        i := i + 1;
      }
      if Valid() {
        forall p | p in vertices && p.IsConnected()
          ensures p.signalChannel.signal == 0
        {
          assert Channels()[p] == p.signalChannel;
          assert p.signalChannel in signalChannels;
        }
      }
    }
  }

  // ---------------------------------------------------------------------
  // Devices: reading ports in order
  // ---------------------------------------------------------------------

  /** The values of `ports` in port order; an unconnected port reads 0. */
  function ReadAll(ports: seq<Port>): (r: seq<int>)
    reads (set p | p in ports)`signalChannel, (set p | p in ports :: p.signalChannel)`signal
    ensures |r| == |ports|
    ensures forall i :: 0 <= i < |ports| ==> r[i] == ports[i].Read()
  {
    if |ports| == 0 then []
    else
      var p := ports[|ports| - 1];
      ReadAll(ports[..|ports| - 1]) + [if p.signalChannel != null then p.signalChannel.signal else 0]
  }

  /** Which of `ports` have a channel, in port order. */
  function ConnectedAll(ports: seq<Port>): (r: seq<bool>)
    reads (set p | p in ports)`signalChannel
    ensures |r| == |ports|
    ensures forall i :: 0 <= i < |ports| ==> (r[i] <==> ports[i].signalChannel != null)
  {
    if |ports| == 0 then [] else ConnectedAll(ports[..|ports| - 1]) + [ports[|ports| - 1].signalChannel != null]
  }

  /** The loop that fills the `signals` array of `Processor.Process` and `Actuator.Write`. */
  method ReadInputs(ports: seq<Port>) returns (signals: seq<int>)
    ensures signals == ReadAll(ports)
  {
    signals := [];
    for i := 0 to |ports|
      invariant |signals| == i
      invariant forall j :: 0 <= j < i ==> signals[j] == ports[j].Read()
    {
      signals := signals + [ports[i].Read()];
    }
  }

  /** The first port's value, then the others'. */
  lemma ReadAllFront(ports: seq<Port>)
    requires |ports| > 0
    ensures ReadAll(ports) == [ports[0].Read()] + ReadAll(ports[1..])
  {
    var r, t := ReadAll(ports), ReadAll(ports[1..]);
    forall i | 0 < i < |ports|
      ensures r[i] == t[i - 1]
    {
      assert ports[1..][i - 1] == ports[i];
    }
  }

  /** Joins each of `ports` to `graph`, in order: the `foreach` of the devices' `Initialize`. */
  method AddAllToNetwork(ports: seq<Port>, graph: SignalNetworkGraph)
    requires graph.Valid()
    requires forall i, j :: 0 <= i < j < |ports| ==> ports[i] != ports[j]
    requires forall p :: p in ports ==> p.network == null
    modifies graph, set p | p in ports
    ensures graph.Valid()
    ensures graph.vertices == old(graph.vertices) + set p | p in ports
    ensures graph.wires == old(graph.wires) && graph.signalChannels == old(graph.signalChannels)
    ensures forall p :: p in ports ==> p.network == graph
  {
    for i := 0 to |ports|
      invariant graph.Valid()
      invariant graph.vertices == old(graph.vertices) + set p | p in ports[..i]
      invariant graph.wires == old(graph.wires) && graph.signalChannels == old(graph.signalChannels)
      invariant forall j :: 0 <= j < i ==> ports[j].network == graph
      invariant forall j :: i <= j < |ports| ==> ports[j].network == null
    {
      var ok := ports[i].AddToNetwork(graph);
    }
    assert ports[..|ports|] == ports;
  }

  // ---------------------------------------------------------------------
  // Sensor
  // ---------------------------------------------------------------------

  /** What `ReadSensor` a sensor runs: the base class's, or a `Constant`'s. */
  datatype SensorKind = PlainSensor | Constant(value: int)

  class Sensor {
    const kind: SensorKind
    const outputPort: Port
    var network: SignalNetworkGraph?

    constructor (kind: SensorKind, outputPort: Port)
      ensures this.kind == kind && this.outputPort == outputPort && network == null
    {
      this.kind := kind;
      this.outputPort := outputPort;
      network := null;
    }

    method Initialize(graph: SignalNetworkGraph)
      requires graph.Valid() && outputPort.network == null
      modifies this, graph, outputPort
      ensures graph.Valid() && network == graph && outputPort.network == graph
      ensures graph.vertices == old(graph.vertices) + {outputPort}
      ensures graph.wires == old(graph.wires) && graph.signalChannels == old(graph.signalChannels)
    {
      network := graph;
      var ok := outputPort.AddToNetwork(network);
    }

    /** The reading depends on nothing but the sensor's own setting: a constant gives its value, the base class 0. */
    function ReadSensor(): (r: int)
      ensures kind.Constant? ==> r == kind.value
      ensures kind.PlainSensor? ==> r == 0
    {
      match kind
      case PlainSensor => 0
      case Constant(value) => value
    }

    /**
     * Max-combines the reading into the output channel, if any: the channel
     * then holds at least the reading, and a second read in the same tick
     * leaves it as it is.
     */
    method Read()
      modifies outputPort.signalChannel
      ensures outputPort.signalChannel != null ==>
                outputPort.signalChannel.signal == Max(old(outputPort.signalChannel.signal), ReadSensor())
    {
      outputPort.Write(ReadSensor());
    }
  }

  // ---------------------------------------------------------------------
  // Actuator
  // ---------------------------------------------------------------------

  class Actuator {
    const inputPorts: seq<Port>
    var network: SignalNetworkGraph?

    constructor (inputPorts: seq<Port>)
      ensures this.inputPorts == inputPorts && network == null
    {
      this.inputPorts := inputPorts;
      network := null;
    }

    method Initialize(graph: SignalNetworkGraph)
      requires graph.Valid()
      requires forall i, j :: 0 <= i < j < |inputPorts| ==> inputPorts[i] != inputPorts[j]
      requires forall p :: p in inputPorts ==> p.network == null
      modifies this, graph, set p | p in inputPorts
      ensures graph.Valid() && network == graph
      ensures graph.vertices == old(graph.vertices) + set p | p in inputPorts
      ensures graph.wires == old(graph.wires) && graph.signalChannels == old(graph.signalChannels)
      ensures forall p :: p in inputPorts ==> p.network == graph
    {
      network := graph;
      AddAllToNetwork(inputPorts, graph);
    }

    /**
     * The signals handed to the device's `WriteActuator`: every input port's
     * value in port order, 0 for an unconnected one.
     */
    method Write() returns (signals: seq<int>)
      ensures signals == ReadAll(inputPorts)
    {
      signals := ReadInputs(inputPorts);
    }
  }

  // ---------------------------------------------------------------------
  // Processor
  // ---------------------------------------------------------------------

  /** Which `ProcessSignal` a processor runs: one of the gates, or the base class's. */
  datatype Gate = AndGate | MaxGate | XorGate | NotGate | Subtracter | Adder | Unimplemented

  /** The inputs a gate indexes directly (fewer make the source throw). */
  function Arity(gate: Gate): nat
  {
    match gate
    case NotGate => 1
    case Subtracter => 3
    case _ => 0
  }

  /** The gate's function of the input signals; `connected` marks the inputs whose port has a channel. */
  function Compute(gate: Gate, inputs: seq<int>, connected: seq<bool>): int
    requires |connected| == |inputs| >= Arity(gate)
  {
    match gate
    case AndGate => Gates.AndOf(inputs, connected)
    case MaxGate => Gates.MaxOf(inputs)
    case XorGate => Gates.XorOf(inputs)
    case NotGate => Gates.NotOf(inputs)
    case Subtracter => Gates.SubtracterOf(inputs)
    case Adder => Gates.AdderOf(inputs)
    case Unimplemented => 0
  }

  /** `n` zeros: the queue `SetOutputDelay(n)` builds. */
  function Zeros(n: nat): (r: seq<int>)
    ensures |r| == n && forall i :: 0 <= i < n ==> r[i] == 0
  {
    seq(n, _ => 0)
  }

  /** The queue after one `AdvanceOutputQueue`: the oldest entry leaves, the last computed signal joins. */
  function Advanced(queue: seq<int>, processed: int): seq<int>
    requires |queue| > 0
  {
    queue[1..] + [processed]
  }

  /**
   * What an unchained processor's output port receives from its register
   * over successive ticks, in the order `Tick` runs them: the register
   * writes its oldest entry and takes `last`, the value `Process` computed
   * on the tick before; then `Process` computes `computed[t]`.
   */
  function Emitted(queue: seq<int>, last: int, computed: seq<int>): (r: seq<int>)
    requires |queue| > 0
    ensures |r| == |computed|
    decreases |computed|
  {
    if |computed| == 0 then [] else [queue[0]] + Emitted(Advanced(queue, last), computed[0], computed[1..])
  }

  /** Tick `t` writes entry `t` of the queue, then the value computed before the first tick, then the computed values. */
  lemma {:induction false} EmittedIs(queue: seq<int>, last: int, computed: seq<int>, t: int)
    requires |queue| > 0 && 0 <= t < |computed|
    ensures Emitted(queue, last, computed)[t] == (queue + [last] + computed)[t]
    decreases t
  {
    if t > 0 {
      EmittedIs(Advanced(queue, last), computed[0], computed[1..], t - 1);
      assert Advanced(queue, last) + [computed[0]] + computed[1..] == (queue + [last] + computed)[1..];
    }
  }

  /**
   * A register built by `SetOutputDelay(d)` brings the value computed on
   * tick `k` to the output port on tick `k + d + 1`: `d` ticks in the
   * queue, plus the tick between `Process` and the next `AdvanceOutputQueue`.
   */
  lemma DelayTicks(d: nat, last: int, computed: seq<int>, k: nat)
    requires d >= 1 && k + d + 1 < |computed|
    ensures Emitted(Zeros(d), last, computed)[k + d + 1] == computed[k]
  {
    EmittedIs(Zeros(d), last, computed, k + d + 1);
  }

  /** Depth 1, a 5 computed on tick 0: the port reads it on tick 2. */
  lemma DelayOneTick()
    ensures Emitted(Zeros(1), 0, [5, 0, 0]) == [0, 0, 5]
  {
    EmittedIs(Zeros(1), 0, [5, 0, 0], 1);
    EmittedIs(Zeros(1), 0, [5, 0, 0], 2);
  }

  class Processor {
    const gate: Gate
    const inputPorts: seq<Port>
    const outputPort: Port
    var network: SignalNetworkGraph?
    var outputQueue: seq<int>
    var processedSignal: int
    var chainedInputProcessor: Processor?
    var chainedOutputProcessor: Processor?

    constructor (gate: Gate, inputPorts: seq<Port>, outputPort: Port)
      ensures this.gate == gate && this.inputPorts == inputPorts && this.outputPort == outputPort
      ensures network == null && outputQueue == [] && processedSignal == 0
      ensures chainedInputProcessor == null && chainedOutputProcessor == null
    {
      this.gate := gate;
      this.inputPorts := inputPorts;
      this.outputPort := outputPort;
      network := null;
      outputQueue := [];
      processedSignal := 0;
      chainedInputProcessor := null;
      chainedOutputProcessor := null;
    }

    /** The processor's ports: its inputs and its output. */
    function PortSet(): set<Port>
    {
      set p | p in inputPorts + [outputPort]
    }

    /** Joins every input port, then the output port, to `graph` and sets the delay. */
    method Initialize(graph: SignalNetworkGraph, delayTicks: int)
      requires graph.Valid()
      requires forall i, j :: 0 <= i < j < |inputPorts + [outputPort]| ==> (inputPorts + [outputPort])[i] != (inputPorts + [outputPort])[j]
      requires forall p :: p in inputPorts + [outputPort] ==> p.network == null
      modifies this`network, this`outputQueue, graph, PortSet()
      ensures graph.Valid() && network == graph
      ensures graph.vertices == old(graph.vertices) + PortSet()
      ensures graph.wires == old(graph.wires) && graph.signalChannels == old(graph.signalChannels)
      ensures forall p :: p in inputPorts + [outputPort] ==> p.network == graph
      ensures delayTicks >= 1 ==> outputQueue == Zeros(delayTicks)
      ensures delayTicks < 1 ==> outputQueue == old(outputQueue)
    {
      network := graph;
      AddAllToNetwork(inputPorts + [outputPort], graph);
      SetOutputDelay(delayTicks);
    }

    /** A delay below 1 is refused and the queue kept; otherwise the queue becomes `delayTicks` zeros. */
    method SetOutputDelay(delayTicks: int)
      modifies this`outputQueue
      ensures delayTicks < 1 ==> outputQueue == old(outputQueue)
      ensures delayTicks >= 1 ==> outputQueue == Zeros(delayTicks)
    {
      if delayTicks < 1 {
        return;
      }
      outputQueue := [];
      for i := 0 to delayTicks
        invariant outputQueue == Zeros(i)
      {
        outputQueue := outputQueue + [0];
      }
    }

    predicate IsInputChained()
      reads this`chainedInputProcessor
    {
      chainedInputProcessor != null
    }

    predicate IsOutputChained()
      reads this`chainedOutputProcessor
    {
      chainedOutputProcessor != null
    }

    /**
     * Links `inputProcessor`'s output straight to this processor's first
     * input. Already input-chained makes the source throw; the model returns
     * false then and changes nothing. Otherwise both ports leave the graph
     * and share a fresh channel that the graph does not track.
     */
    method Chain(inputProcessor: Processor, ghost graph: SignalNetworkGraph) returns (ok: bool)
      requires |inputPorts| > 0 && inputPorts[0] != inputProcessor.outputPort
      requires graph.Valid()
      requires inputPorts[0].network == graph && inputPorts[0] in graph.vertices
      requires inputProcessor.outputPort.network == graph && inputProcessor.outputPort in graph.vertices
      modifies this`chainedInputProcessor, inputProcessor`chainedOutputProcessor
      modifies inputPorts[0], inputProcessor.outputPort, graph, graph.vertices`signalChannel
      ensures ok <==> old(chainedInputProcessor) == null
      ensures !ok ==> unchanged(this, inputProcessor, inputPorts[0], inputProcessor.outputPort, graph) && unchanged(old(graph.vertices))
      ensures ok ==> chainedInputProcessor == inputProcessor && inputProcessor.chainedOutputProcessor == this
      ensures ok ==> graph.Valid() && graph.vertices == old(graph.vertices) - {inputPorts[0], inputProcessor.outputPort}
      ensures ok ==> forall w :: w in graph.wires ==>
                       graph.wires[w].source !in {inputPorts[0], inputProcessor.outputPort}
                       && graph.wires[w].target !in {inputPorts[0], inputProcessor.outputPort}
      ensures ok ==> inputPorts[0].network == null && inputProcessor.outputPort.network == null
      ensures ok ==> inputPorts[0].signalChannel != null && fresh(inputPorts[0].signalChannel)
                     && inputProcessor.outputPort.signalChannel == inputPorts[0].signalChannel
                     && inputPorts[0].signalChannel !in graph.signalChannels
    {
      if IsInputChained() {
        return false;
      }
      chainedInputProcessor := inputProcessor;
      inputProcessor.chainedOutputProcessor := this;
      Splice(inputPorts[0], inputProcessor.outputPort, graph);
      ok := true;
    }

    /** The port side of `Chain`: both ports leave `graph` and then share a fresh channel that the graph does not track. */
    static method Splice(a: Port, b: Port, ghost graph: SignalNetworkGraph)
      requires a != b && graph.Valid()
      requires a.network == graph && a in graph.vertices && b.network == graph && b in graph.vertices
      modifies a, b, graph, graph.vertices`signalChannel
      ensures graph.Valid() && graph.vertices == old(graph.vertices) - {a, b}
      ensures forall w :: w in graph.wires ==> graph.wires[w].source !in {a, b} && graph.wires[w].target !in {a, b}
      ensures a.network == null && b.network == null
      ensures a.signalChannel != null && fresh(a.signalChannel)
              && b.signalChannel == a.signalChannel && a.signalChannel !in graph.signalChannels
    {
      a.RemoveFromNetwork();
      b.RemoveFromNetwork();
      var signalChannel := new SignalChannel();
      a.signalChannel := signalChannel;
      b.signalChannel := signalChannel;
    }
  
    /** The ports `Chain` took out of the graph are outside it and may join it again. */
    ghost predicate Rejoinable()
      reads this`network, this`chainedInputProcessor, network, if network != null then network.vertices else {}, UnchainPorts()
    {
      && network != null && network.Valid()
      && (chainedInputProcessor != null ==>
            && |inputPorts| > 0 && inputPorts[0] != chainedInputProcessor.outputPort
            && inputPorts[0].network == null && inputPorts[0] !in network.vertices
            && chainedInputProcessor.outputPort.network == null && chainedInputProcessor.outputPort !in network.vertices)
    }

    /** The two ports of the input link, which `Unchain` puts back into the graph. */
    ghost function UnchainPorts(): set<Port>
      reads this`chainedInputProcessor
    {
      if chainedInputProcessor == null then {}
      else {chainedInputProcessor.outputPort} + (if |inputPorts| > 0 then {inputPorts[0]} else {})
    }

    /**
     * Undoes `Chain`. Not input-chained makes the source throw; the model
     * returns false then and changes nothing. Otherwise both ports join the
     * processor's graph again, without a channel, and both links are cleared.
     */
    method Unchain() returns (ok: bool)
      requires Rejoinable()
      modifies this`chainedInputProcessor, (if chainedInputProcessor != null then {chainedInputProcessor} else {})`chainedOutputProcessor
      modifies network, UnchainPorts()
      ensures ok <==> old(chainedInputProcessor) != null
      ensures !ok ==> unchanged(this, network)
      ensures ok ==> chainedInputProcessor == null && old(chainedInputProcessor).chainedOutputProcessor == null
      ensures ok ==> network.Valid() && network.vertices == old(network.vertices) + {inputPorts[0], old(chainedInputProcessor).outputPort}
      ensures ok ==> network.wires == old(network.wires) && network.signalChannels == old(network.signalChannels)
      ensures ok ==> inputPorts[0].network == network && old(chainedInputProcessor).outputPort.network == network
      ensures ok ==> inputPorts[0].signalChannel == null && old(chainedInputProcessor).outputPort.signalChannel == null
    {
      if !IsInputChained() {
        return false;
      }
      var upstream := chainedInputProcessor;
      var ok1 := upstream.outputPort.AddToNetwork(network);
      var ok2 := inputPorts[0].AddToNetwork(network);
      upstream.chainedOutputProcessor := null;
      chainedInputProcessor := null;
      ok := true;
    }

    /**
     * Unchains the processor this one feeds. Throws, here false with nothing
     * changed, when the output is not chained or the downstream processor's
     * input is not.
     */
    method UnchainOutput() returns (ok: bool)
      requires chainedOutputProcessor != null ==> chainedOutputProcessor.Rejoinable()
      modifies (if chainedOutputProcessor != null then {chainedOutputProcessor} else {})`chainedInputProcessor
      modifies if chainedOutputProcessor != null then {chainedOutputProcessor.network} else {}
      modifies if chainedOutputProcessor != null then chainedOutputProcessor.UnchainPorts() else {}
      modifies (if chainedOutputProcessor != null && chainedOutputProcessor.chainedInputProcessor != null
                then {chainedOutputProcessor.chainedInputProcessor} else {})`chainedOutputProcessor
      ensures ok <==> old(chainedOutputProcessor) != null && old(chainedOutputProcessor.chainedInputProcessor) != null
      ensures ok ==> old(chainedOutputProcessor).chainedInputProcessor == null
      ensures ok ==> old(chainedOutputProcessor.chainedInputProcessor).chainedOutputProcessor == null
      ensures ok && old(chainedOutputProcessor.chainedInputProcessor) == this ==> chainedOutputProcessor == null
      ensures ok ==> var down := old(chainedOutputProcessor); var graph := down.network;
        && graph.Valid() && graph.wires == old(graph.wires) && graph.signalChannels == old(graph.signalChannels)
        && graph.vertices == old(graph.vertices) + {down.inputPorts[0], old(down.chainedInputProcessor).outputPort}
        && down.inputPorts[0].network == graph && old(down.chainedInputProcessor).outputPort.network == graph
    {
      if !IsOutputChained() {
        return false;
      }
      ok := chainedOutputProcessor.Unchain();
    }

    /**
     * One tick of the delay register: the oldest queued signal is written
     * to the output port and the last computed one joins the queue, so the
     * queue keeps its length. A chained output skips the register.
     */
    method AdvanceOutputQueue()
      requires !IsOutputChained() ==> |outputQueue| > 0
      modifies this`outputQueue, outputPort.signalChannel
      ensures IsOutputChained() ==> outputQueue == old(outputQueue) && (outputPort.signalChannel != null ==> unchanged(outputPort.signalChannel))
      ensures !IsOutputChained() ==> outputQueue == Advanced(old(outputQueue), processedSignal)
      ensures |outputQueue| == |old(outputQueue)|
      ensures !IsOutputChained() && outputPort.signalChannel != null ==>
                outputPort.signalChannel.signal == Max(old(outputPort.signalChannel.signal), old(outputQueue[0]))
    {
      if IsOutputChained() {
        return;
      }
      outputPort.Write(outputQueue[0]);
      outputQueue := outputQueue[1..] + [processedSignal];
    }

    /** The gate's loop over this tick's input signals. */
    method ProcessSignal(inputSignals: seq<int>) returns (output: int)
      requires |inputSignals| == |inputPorts| >= Arity(gate)
      ensures output == Compute(gate, inputSignals, ConnectedAll(inputPorts))
    {
      match gate
      case AndGate => output := Gates.AndGate(inputSignals, ConnectedAll(inputPorts));
      case MaxGate => output := Gates.MaxGate(inputSignals);
      case XorGate => output := Gates.XorGate(inputSignals);
      case NotGate => output := Gates.NotOf(inputSignals);
      case Subtracter => output := Gates.SubtracterOf(inputSignals);
      case Adder => output := Gates.Adder(inputSignals);
      case Unimplemented => output := 0;
    }

    /** Runs the gate over the values the input ports hold now. */
    method Recompute()
      requires |inputPorts| >= Arity(gate)
      modifies this`processedSignal
      ensures processedSignal == Compute(gate, ReadAll(inputPorts), ConnectedAll(inputPorts))
    {
      var signals := ReadInputs(inputPorts);
      processedSignal := ProcessSignal(signals);
    }

    /**
     * Computes this tick's signal from the input ports. Chained, it also
     * resets and writes the link to the next processor and runs that one's
     * `Process` at once, and so on down the chain `all` that starts here:
     * each processor downstream sees its predecessor's new signal (0 if
     * that is below 0) on its first input and, on the others, the values
     * `others` its ports held when the chain started; every link ends up
     * holding the value it passed on.
     */
    method Process(ghost all: seq<Processor>, ghost others: seq<seq<int>>)
      requires Linked(all) && all[0] == this && OtherInputs(all, others)
      modifies (set q | q in all)`processedSignal, PrivateChannels(all)`signal
      decreases |all|, 1
      ensures processedSignal == Compute(gate, old(ReadAll(inputPorts)), ConnectedAll(inputPorts))
      ensures Downstream(all, others)
    {
      Recompute();
      if IsOutputChained() {
        PassOn(all, others);
      }
    }

    /** The chained half of `Process`: sends this processor's signal down the link and runs the next processor. */
    method PassOn(ghost all: seq<Processor>, ghost others: seq<seq<int>>)
      requires Linked(all) && all[0] == this && |all| > 1 && OtherInputs(all, others)
      modifies (set q | q in all[1..])`processedSignal, PrivateChannels(all)`signal
      decreases |all|, 0
      ensures processedSignal == old(processedSignal)
      ensures Downstream(all, others)
    {
      LinkedTail(all);
      ghost var rest := all[1..];
      assert this !in rest;
      assert outputPort.signalChannel !in PrivateChannels(rest);
      SendToChained(all, others);
      chainedOutputProcessor.Process(rest, others[1..]);
    }

    /**
     * The reset-and-write of `Process` on a chained output: the link then
     * holds the new signal, or 0 if that is below 0 (the write max-combines
     * with the reset value), so the next processor's first input reads it;
     * no other input port of the chain sees a change.
     */
    method SendToChained(ghost all: seq<Processor>, ghost others: seq<seq<int>>)
      requires Linked(all) && all[0] == this && |all| > 1 && OtherInputs(all, others)
      requires outputPort.signalChannel != null
      modifies outputPort.signalChannel`signal
      ensures outputPort.Read() == Max(0, processedSignal)
      ensures ReadAll(all[1].inputPorts) == [Max(0, processedSignal)] + others[1]
      ensures OtherInputs(all[1..], others[1..])
    {
      assert Link(all[0], all[1]);
      var link := outputPort.signalChannel;
      assert link in PrivateChannels(all);
      outputPort.Reset();
      outputPort.Write(processedSignal);
      forall i | 0 < i < |all|
        ensures ReadAll(all[i].inputPorts[1..]) == others[i]
      {
        assert Apart(all[i].inputPorts[1..], PrivateChannels(all));
      }
      ReadAllFront(all[1].inputPorts);
    }
  }

  /**
   * What `Process` leaves behind on a chain `all`: every link holds its
   * upstream processor's signal, or 0 if that is below 0, and every
   * processor after the first computed its gate over that value and the
   * values `others` of its other inputs.
   */
  ghost predicate Downstream(all: seq<Processor>, others: seq<seq<int>>)
    reads (set q | q in all)`processedSignal, (set q | q in all :: q.outputPort)`signalChannel
    reads (set q | q in all :: q.outputPort.signalChannel)`signal, InputPortsOf(all)`signalChannel
    decreases |all|
  {
    |all| > 1 ==>
      && |others| == |all|
      && |all[1].inputPorts| >= Arity(all[1].gate) && |all[1].inputPorts| == |others[1]| + 1
      && all[0].outputPort.Read() == Max(0, all[0].processedSignal)
      && all[1].processedSignal == Compute(all[1].gate, [Max(0, all[0].processedSignal)] + others[1], ConnectedAll(all[1].inputPorts))
      && Downstream(all[1..], others[1..])
  }

  /** `Downstream` at one link `i - 1` to `i` of the chain. */
  lemma {:induction false} DownstreamAt(all: seq<Processor>, others: seq<seq<int>>, i: int)
    requires Downstream(all, others) && 0 < i < |all|
    ensures all[i - 1].outputPort.Read() == Max(0, all[i - 1].processedSignal)
    ensures |all[i].inputPorts| >= Arity(all[i].gate) && |all[i].inputPorts| == |others[i]| + 1
    ensures all[i].processedSignal
            == Compute(all[i].gate, [Max(0, all[i - 1].processedSignal)] + others[i], ConnectedAll(all[i].inputPorts))
    decreases i
  {
    if i > 1 {
      DownstreamAt(all[1..], others[1..], i - 1);
      assert all[1..][i - 1] == all[i] && all[1..][i - 2] == all[i - 1] && others[1..][i - 1] == others[i];
    }
  }

  /** `others[i]` holds the values of the inputs of `all[i]` other than its first, for every processor after the first. */
  ghost predicate OtherInputs(all: seq<Processor>, others: seq<seq<int>>)
    reads InputPortsOf(all)`signalChannel, (set q, p | q in all && p in q.inputPorts :: p.signalChannel)`signal
  {
    && |others| == |all|
    && forall i :: 0 < i < |all| && |all[i].inputPorts| > 0 ==> others[i] == ReadAll(all[i].inputPorts[1..])
  }

  /** Every input port of the processors `all`. */
  ghost function InputPortsOf(all: seq<Processor>): (r: set<Port>)
    ensures forall i, p :: 0 <= i < |all| && p in all[i].inputPorts ==> p in r
  {
    set q, p | q in all && p in q.inputPorts :: p
  }

  /** The channels a chain `all` keeps to itself: each joins one processor's output to the next one's first input. */
  ghost function PrivateChannels(all: seq<Processor>): set<SignalChannel?>
    reads (set q | q in all :: q.outputPort)`signalChannel
  {
    set i | 0 <= i < |all| - 1 :: all[i].outputPort.signalChannel
  }

  /** The link from `up` to `down`: `up`'s output channel, shared with `down`'s first input. */
  ghost predicate Link(up: Processor, down: Processor)
    reads up.outputPort`signalChannel, (set p | p in down.inputPorts)`signalChannel
  {
    up.outputPort.signalChannel != null && |down.inputPorts| > 0 && down.inputPorts[0].signalChannel == up.outputPort.signalChannel
  }

  /** No port of `ports` sees one of the `links`. */
  ghost predicate Apart(ports: seq<Port>, links: set<SignalChannel?>)
    reads (set p | p in ports)`signalChannel
  {
    forall p :: p in ports ==> p.signalChannel !in links
  }

  /**
   * `all` is a chain of distinct processors, each output-chained to the
   * next and the last one not, with enough inputs for its gate; each link
   * is a channel shared by one processor's output and the next one's first
   * input, the links are distinct, and no other input port of the chain
   * sees a link.
   */
  ghost predicate Linked(all: seq<Processor>)
    reads (set q | q in all)`chainedOutputProcessor, InputPortsOf(all)`signalChannel, (set q | q in all :: q.outputPort)`signalChannel
  {
    ChainShape(all) && ChainLinks(all)
  }

  /** The processors of the chain: distinct, each chained to the next, the last one not. */
  ghost predicate ChainShape(all: seq<Processor>)
    reads (set q | q in all)`chainedOutputProcessor
  {
    && |all| > 0
    && (forall i, j :: 0 <= i < j < |all| ==> all[i] != all[j])
    && (forall i :: 0 <= i < |all| ==> |all[i].inputPorts| >= Arity(all[i].gate))
    && (forall i :: 0 < i < |all| ==> |all[i].inputPorts| > 0)
    && (forall i :: 0 <= i < |all| - 1 ==> all[i].chainedOutputProcessor == all[i + 1])
    && all[|all| - 1].chainedOutputProcessor == null
  }

  /**
   * A processor chained to its own output has no chain: every chain
   * starting at it would have to list it twice, so `Process` has no run
   * that ends.
   */
  lemma SelfChainUnrunnable(p: Processor, all: seq<Processor>)
    requires p.chainedOutputProcessor == p && |all| > 0 && all[0] == p
    ensures !ChainShape(all)
  {
    if |all| == 1 {
      assert all[|all| - 1].chainedOutputProcessor != null;
    } else {
      // the link from `all[0]` leads back to `all[0]`: a repeat, or no link to `all[1]`
      assert all[0] == all[1] || all[0].chainedOutputProcessor != all[1];
    }
  }

  /** The channels of the chain: one per link, distinct, seen by no other input port. */
  ghost predicate ChainLinks(all: seq<Processor>)
    reads InputPortsOf(all)`signalChannel, (set q | q in all :: q.outputPort)`signalChannel
  {
    && (forall i :: 0 <= i < |all| - 1 ==> Link(all[i], all[i + 1]))
    && (forall i, j :: 0 <= i < j < |all| - 1 ==> all[i].outputPort.signalChannel != all[j].outputPort.signalChannel)
    && (forall i :: 0 <= i < |all| && |all[i].inputPorts| > 0 ==> Apart(all[i].inputPorts[1..], PrivateChannels(all)))
    && (|all| > 0 && |all[0].inputPorts| > 0 ==> Apart(all[0].inputPorts[..1], PrivateChannels(all)))
  }

  /** The rest of a chain is a chain, with fewer links. */
  lemma LinkedTail(all: seq<Processor>)
    requires Linked(all) && |all| > 1
    ensures Linked(all[1..])
    ensures PrivateChannels(all[1..]) <= PrivateChannels(all)
  {
  }
}
