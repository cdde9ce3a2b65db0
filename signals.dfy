/**
 * The live logic-signal network (namespace `Signals`): ports joined by
 * wires into an undirected graph, where every connected group of wired
 * ports shares one `Channel`. The network keeps the invariant of
 * `PortGraphs.NetworkInvariant`: a port has a channel exactly when it has a
 * wire, the two ends of a wire share their channel, ports of different
 * components never do, and every channel in use is tracked for the
 * per-tick reset.
 */
module Signals {
  import opened PortGraphs
  import opened Lists

  /** A wire is a game object; the network only uses its identity as an edge tag. */
  class Wire { }

  function Max(a: int, b: int): int
  {
    if a >= b then a else b
  }

  /** `List<Channel>.Remove`: the list never holds null, so removing null leaves it as it is. */
  function Remove(list: seq<Channel>, c: Channel?): seq<Channel>
  {
    if c == null then list else var d: Channel := c; RemoveFirst(list, d)
  }

  /** A shared signal line: writers combine by maximum until the next reset. */
  class Channel {
    var signal: int

    constructor ()
      ensures signal == 0
    {
      signal := 0;
    }

    method Reset()
      modifies this
      ensures signal == 0
    {
      signal := 0;
    }

    /** Max-combine: the stored value never goes down and covers `s`. */
    method Write(s: int)
      modifies this
      ensures signal >= old(signal) && signal >= s
      ensures signal == old(signal) || signal == s
    {
      signal := Max(signal, s);
    }

    function Read(): int
      reads this
    {
      signal
    }
  }

  class Port {
    /** The Unity instance id, fixed for the object's life. */
    const id: int
    var network: PortNetworkGraph?
    var signalChannel: Channel?

    constructor (id: int)
      ensures this.id == id && network == null && signalChannel == null
    {
      this.id := id;
      network := null;
      signalChannel := null;
    }

    predicate IsConnected()
      reads this
    {
      signalChannel != null
    }

    /**
     * Joins `graph`. A port already in a network makes it throw; the model
     * returns false then and changes nothing.
     */
    method AddToNetwork(graph: PortNetworkGraph) returns (ok: bool)
      requires graph.Valid()
      modifies this, graph
      ensures graph.Valid()
      ensures ok <==> old(network) == null
      ensures !ok ==> unchanged(this, graph)
      ensures ok ==> network == graph && graph.vertices == old(graph.vertices) + {this}
      ensures ok ==> graph.wires == old(graph.wires) && graph.signalChannels == old(graph.signalChannels)
      ensures ok && this !in old(graph.vertices) ==> signalChannel == null
      ensures ok && this in old(graph.vertices) ==> signalChannel == old(signalChannel)
    {
      if network != null {
        return false;
      }
      network := graph;
      graph.AddPort(this);
      ok := true;
    }

    /** Leaves the network it is in: every wire on it is disconnected and the vertex removed. */
    method RemoveFromNetwork()
      requires network != null && network.Valid() && this in network.vertices
      modifies this, network, network.vertices`signalChannel
      ensures network == null
      ensures old(network).Valid() && old(network).vertices == old(network.vertices) - {this}
      ensures forall w :: w in old(network).wires ==> old(network).wires[w].source != this && old(network).wires[w].target != this
    {
      network.RemovePort(this);
      network := null;
    }

    /** Writes into the channel, if any; without one the frame is empty. */
    method Write(signal: int)
      modifies signalChannel
      ensures signalChannel != null ==> signalChannel.signal >= old(signalChannel.signal) && signalChannel.signal >= signal
      ensures signalChannel != null ==> signalChannel.signal == old(signalChannel.signal) || signalChannel.signal == signal
    {
      if signalChannel == null {
        return;
      }
      signalChannel.Write(signal);
    }

    function Read(): (r: int)
      reads this, signalChannel
      ensures !IsConnected() ==> r == 0
    {
      if IsConnected() then signalChannel.Read() else 0
    }

    /** Clears the channel, if any; without one the frame is empty. */
    method Reset()
      modifies signalChannel
      ensures Read() == 0
    {
      if signalChannel == null {
        return;
      }
      signalChannel.Reset();
    }

    /** Orders ports by instance id. */
    function CompareTo(other: Port): (r: int)
      ensures r < 0 <==> id < other.id
      ensures r == 0 <==> id == other.id
      ensures r > 0 <==> id > other.id
    {
      if id < other.id then -1 else if id > other.id then 1 else 0
    }
  }

  class PortNetworkGraph {
    var vertices: set<Port>
    /** Each wire tags one undirected edge; the graph's edges are exactly these. */
    var wires: map<Wire, Edge<Port>>
    var signalChannels: seq<Channel>

    /** The channel of every vertex (null for none). */
    ghost function Channels(): (r: map<Port, Channel?>)
      reads this`vertices, vertices`signalChannel
      ensures r.Keys == vertices
    {
      map p | p in vertices :: p.signalChannel
    }

    /**
     * The network invariant over the current state, and every stored
     * edge has its lower-id end as source.
     */
    ghost predicate Valid()
      reads this`vertices, this`wires, this`signalChannels, vertices`signalChannel
    {
      NetworkInvariant(wires, Channels(), signalChannels, null) && Ordered(wires)
    }

    static ghost predicate Ordered(wires: map<Wire, Edge<Port>>)
    {
      forall w :: w in wires ==> wires[w].source.id <= wires[w].target.id
    }

    /** The edge `ConnectWire` stores: the two ports, the lower-id one as source (`port1` on a tie). */
    static function OrderedEdge(port1: Port, port2: Port): (e: Edge<Port>)
      ensures e.source.id <= e.target.id
      ensures (e.source == port1 && e.target == port2) || (e.source == port2 && e.target == port1)
      ensures port1.id == port2.id ==> e.source == port1
    {
      if port1.CompareTo(port2) > 0 then Edge(port2, port1) else Edge(port1, port2)
    }

    constructor ()
      ensures Valid() && vertices == {} && wires == map[] && signalChannels == []
    {
      vertices := {};
      wires := map[];
      signalChannels := [];
    }

    /** A new vertex starts without a channel; an existing one is left alone. */
    method AddPort(port: Port)
      requires Valid()
      modifies this`vertices, port`signalChannel
      ensures Valid()
      ensures vertices == old(vertices) + {port}
      ensures port in old(vertices) ==> port.signalChannel == old(port.signalChannel)
      ensures port !in old(vertices) ==> port.signalChannel == null
    {
      if port in vertices {
        return;
      }
      AddBarePortKeeps(wires, Channels(), signalChannels, null, port);
      ghost var before := Channels();
      vertices := vertices + {port};
      port.signalChannel := null;
      ChannelsAre(before[port := null]);
    }

    /** Reads the channel map back from the ports (kept apart: the map equality is costly next to `Valid`). */
    lemma ChannelsAre(m: map<Port, Channel?>)
      requires vertices == m.Keys && forall p :: p in m ==> p.signalChannel == m[p]
      ensures Channels() == m
    {
    }

    /**
     * Disconnects every wire on `port` (over a snapshot of them, in any
     * order), drops its channel from the tracked list if it still has one,
     * and removes the vertex. Only ports of `port`'s component can change.
     */
    method RemovePort(port: Port)
      requires Valid() && port in vertices
      modifies this`vertices, this`wires, this`signalChannels, vertices`signalChannel
      ensures Valid()
      ensures vertices == old(vertices) - {port}
      ensures forall u :: u in wires <==> u in old(wires) && u !in Incident(old(wires), port)
      ensures forall u :: u in wires ==> wires[u] == old(wires)[u]
      ensures ChangedWithin(old(wires), old(Channels()), Channels(), port)
    {
      DisconnectAll(port);
      ghost var list0, before := signalChannels, Channels();
      var channel := port.signalChannel;
      signalChannels := if port.IsConnected() then Remove(signalChannels, channel) else signalChannels;
      RemoveIsolatedKeeps(wires, before, list0, null, port, signalChannels);
      vertices := vertices - {port};
      ChannelsAre(before - {port});
    }

    /** The loop of `RemovePort`: disconnects each wire of a snapshot of `port`'s wires. */
    method DisconnectAll(port: Port)
      requires Valid() && port in vertices
      modifies this`wires, this`signalChannels, vertices`signalChannel
      ensures Valid() && Neighbors(wires, port) == {}
      ensures Remaining(old(wires), port, {}, wires)
      ensures ChangedWithin(old(wires), old(Channels()), Channels(), port)
    {
      var edges := Incident(wires, port);
      ghost var wires0, chans0 := wires, Channels();
      while edges != {}
        invariant Valid()
        invariant edges <= Incident(wires0, port) && Remaining(wires0, port, edges, wires)
        invariant ChangedWithin(wires0, chans0, Channels(), port)
        decreases edges
      {
        ghost var some := Member(edges);
        var w :| w in edges;
        ghost var edgesBefore, wiresBefore, chansBefore := edges, wires, Channels();
        edges := edges - {w};
        DisconnectWire(w);
        RemainingStep(wires0, port, edgesBefore, w, wiresBefore, wires);
        ChangedWithinStep(wires0, wiresBefore, w, port, chans0, chansBefore, Channels());
      }
      RemainingNone(wires0, port, wires);
    }

    /**
     * The wires left while `RemovePort` works through the snapshot of
     * `port`'s wires: the other wires, and the snapshot's `edges` not yet
     * disconnected.
     */
    static ghost predicate Remaining(wires0: map<Wire, Edge<Port>>, port: Port, edges: set<Wire>, wires: map<Wire, Edge<Port>>)
    {
      && (forall u :: u in wires ==> u in wires0 && (u !in Incident(wires0, port) || u in edges))
      && (forall u :: u in wires0 && (u !in Incident(wires0, port) || u in edges) ==> u in wires)
      && (forall u :: u in wires ==> wires[u] == wires0[u])
    }

    /** Once the snapshot is used up, `port` has no wire left. */
    static lemma RemainingNone(wires0: map<Wire, Edge<Port>>, port: Port, wires: map<Wire, Edge<Port>>)
      requires Remaining(wires0, port, {}, wires)
      ensures Neighbors(wires, port) == {}
    {
      assert Incident(wires, port) == {};
      IncidentNeighbors(wires, port);
    }

    static lemma RemainingStep(wires0: map<Wire, Edge<Port>>, port: Port, edges: set<Wire>, w: Wire,
                               wires: map<Wire, Edge<Port>>, wires': map<Wire, Edge<Port>>)
      requires edges <= Incident(wires0, port) && Remaining(wires0, port, edges, wires)
      requires w in edges && wires' == wires - {w}
      ensures Remaining(wires0, port, edges - {w}, wires')
    {
    }

    /**
     * Gives `port1`'s whole component and `port2`'s whole component one
     * channel: `port1`'s if it has one, else `port2`'s, else a fresh one;
     * then adds the wire, its lower-id end as source.
     */
    method ConnectWire(wire: Wire, port1: Port, port2: Port)
      requires Valid()
      requires port1 in vertices && port2 in vertices && wire !in wires
      modifies this`wires, this`signalChannels, vertices`signalChannel
      ensures Valid()
      ensures wires == old(wires)[wire := OrderedEdge(port1, port2)]
      ensures port1.signalChannel != null && port2.signalChannel == port1.signalChannel
      ensures Channels() == Joined(old(wires), old(Channels()), port1, port2, port1.signalChannel)
      ensures old(port1.signalChannel) != null ==>
                port1.signalChannel == old(port1.signalChannel)
                && signalChannels == Remove(old(signalChannels), old(port2.signalChannel)) + [port1.signalChannel]
      ensures old(port1.signalChannel) == null && old(port2.signalChannel) != null ==>
                port1.signalChannel == old(port2.signalChannel)
                && signalChannels == old(signalChannels) + [port1.signalChannel]
      ensures old(port1.signalChannel) == null && old(port2.signalChannel) == null ==>
                fresh(port1.signalChannel)
                && signalChannels == old(signalChannels) + if port1 == port2 then [port1.signalChannel] else [port1.signalChannel, port1.signalChannel]
    {
      var edge := OrderedEdge(port1, port2);
      JoinChannels(port1, port2, wire, edge);
      OrderedAdd(wires, wire, edge);
      AddEdge(wire, edge);
    }

    /** Records the wire; the channels stay as they are. */
    method AddEdge(wire: Wire, edge: Edge<Port>)
      modifies this`wires
      ensures wires == old(wires)[wire := edge] && Channels() == old(Channels())
    {
      wires := wires[wire := edge];
    }

    /** The channel half of `ConnectWire`, before the wire `edge` is added. */
    method JoinChannels(port1: Port, port2: Port, ghost wire: Wire, ghost edge: Edge<Port>)
      requires Valid() && port1 in vertices && port2 in vertices && wire !in wires
      requires (edge.source == port1 && edge.target == port2) || (edge.source == port2 && edge.target == port1)
      modifies this`signalChannels, vertices`signalChannel
      ensures NetworkInvariant(wires[wire := edge], Channels(), signalChannels, null)
      ensures port1.signalChannel != null && port2.signalChannel == port1.signalChannel
      ensures Channels() == Joined(wires, old(Channels()), port1, port2, port1.signalChannel)
      ensures old(port1.signalChannel) != null ==>
                port1.signalChannel == old(port1.signalChannel)
                && signalChannels == Remove(old(signalChannels), old(port2.signalChannel)) + [port1.signalChannel]
      ensures old(port1.signalChannel) == null && old(port2.signalChannel) != null ==>
                port1.signalChannel == old(port2.signalChannel)
                && signalChannels == old(signalChannels) + [port1.signalChannel]
      ensures old(port1.signalChannel) == null && old(port2.signalChannel) == null ==>
                fresh(port1.signalChannel)
                && signalChannels == old(signalChannels) + if port1 == port2 then [port1.signalChannel] else [port1.signalChannel, port1.signalChannel]
    {
      if port1.signalChannel != null {
        ShareChannel(port2, port1, wire, edge);
      } else if port2.signalChannel != null {
        ShareChannel(port1, port2, wire, edge);
      } else {
        ShareNewChannel(port1, port2, wire, edge);
      }
    }

    /**
     * The branches of `ConnectWire` where `keep` already has a channel:
     * `start`'s component takes it, and `start`'s old channel leaves the
     * tracked list once. Then the wire `edge` can join the two.
     */
    method ShareChannel(start: Port, keep: Port, ghost wire: Wire, ghost edge: Edge<Port>)
      requires Valid() && start in vertices && keep in vertices && wire !in wires
      requires keep.signalChannel != null
      requires (edge.source == start && edge.target == keep) || (edge.source == keep && edge.target == start)
      modifies this`signalChannels, vertices`signalChannel
      ensures NetworkInvariant(wires[wire := edge], Channels(), signalChannels, null)
      ensures keep.signalChannel == old(keep.signalChannel) && start.signalChannel == keep.signalChannel
      ensures Channels() == Joined(wires, old(Channels()), start, keep, keep.signalChannel)
                         == Joined(wires, old(Channels()), keep, start, keep.signalChannel)
      ensures signalChannels == Remove(old(signalChannels), old(start.signalChannel)) + [keep.signalChannel]
    {
      ghost var chans0, list0 := Channels(), signalChannels;
      WellFormedEnds(wires, chans0, wire);
      AssignSignalChannelBFS(start, keep.signalChannel, true);
      TrackedAfterRemove(list0, chans0[start], [keep.signalChannel]);
      ConnectChannelled(wires, chans0, list0, null, start, keep, Channels(), signalChannels, wire, edge);
    }

    /** The branch of `ConnectWire` where neither port has a channel: both take a fresh one. */
    method ShareNewChannel(port1: Port, port2: Port, ghost wire: Wire, ghost edge: Edge<Port>)
      requires Valid() && port1 in vertices && port2 in vertices && wire !in wires
      requires port1.signalChannel == null && port2.signalChannel == null
      requires (edge.source == port1 && edge.target == port2) || (edge.source == port2 && edge.target == port1)
      modifies this`signalChannels, vertices`signalChannel
      ensures NetworkInvariant(wires[wire := edge], Channels(), signalChannels, null)
      ensures port1.signalChannel != null && fresh(port1.signalChannel) && port2.signalChannel == port1.signalChannel
      ensures Channels() == Joined(wires, old(Channels()), port1, port2, port1.signalChannel)
      ensures signalChannels == old(signalChannels) + if port1 == port2 then [port1.signalChannel] else [port1.signalChannel, port1.signalChannel]
    {
      ghost var chans0, list0 := Channels(), signalChannels;
      var c := new Channel();
      AssignSignalChannelBFS(port1, c, true);
      ghost var chans1, list1 := Channels(), signalChannels;
      AssignSignalChannelBFS(port2, port1.signalChannel, true);
      FreshTwice(list0, list1, signalChannels, c, chans1[port2], port1 == port2);
      ConnectFresh(wires, chans0, list0, null, port1, port2, c, Channels(), signalChannels, wire, edge);
    }

    /** The tracked list of `ShareNewChannel`: the fresh channel joins once per port. */
    static lemma FreshTwice(list0: seq<Channel>, list1: seq<Channel>, list2: seq<Channel>, c: Channel, old2: Channel?, same: bool)
      requires c !in list0
      requires list1 == Remove(list0, null) + [c] && list2 == Remove(list1, old2) + [c]
      requires if same then old2 == c else old2 == null
      ensures list2 == list0 + if same then [c] else [c, c]
    {
      if same {
        RemoveFirstAt(list1, c, |list0|);
        assert list1[..|list0|] == list0;
      }
    }

    static lemma OrderedAdd(wires: map<Wire, Edge<Port>>, wire: Wire, edge: Edge<Port>)
      requires Ordered(wires) && edge.source.id <= edge.target.id
      ensures Ordered(wires[wire := edge])
    {
    }

    /** After `Remove(list, c)`, every other channel of `list` is still tracked. */
    static lemma TrackedAfterRemove(list: seq<Channel>, c: Channel?, more: seq<Channel>)
      ensures forall d :: d in list && d != c ==> d in Remove(list, c) + more
    {
      forall d | d in list && d != c
        ensures d in Remove(list, c) + more
      {
        if c != null {
          var e: Channel := c;
          RemoveFirstKeeps(list, e, d);
          assert Remove(list, c) == RemoveFirst(list, e);
        }
        assert d in Remove(list, c);
      }
    }

    /**
     * Removes a known wire and repairs the channels: both ends still wired
     * gives `port1`'s side a fresh channel (the old one stays tracked); one
     * end left bare loses its channel; both bare lose theirs and `port1`'s
     * old channel leaves the tracked list once. An unknown wire is ignored.
     */
    method DisconnectWire(wire: Wire)
      requires Valid()
      modifies this`wires, this`signalChannels, vertices`signalChannel
      ensures Valid()
      ensures wire !in old(wires) ==> wires == old(wires) && signalChannels == old(signalChannels) && Channels() == old(Channels())
      ensures wire in old(wires) ==> wires == old(wires) - {wire}
      ensures wire in old(wires) ==> ChangedWithin(old(wires), old(Channels()), Channels(), old(wires)[wire].source)
      ensures wire in old(wires) ==>
                var s, t := old(wires)[wire].source, old(wires)[wire].target;
                && (Neighbors(wires, s) != {} && Neighbors(wires, t) != {} ==>
                      s.signalChannel != null && fresh(s.signalChannel)
                      && signalChannels == old(signalChannels) + [s.signalChannel]
                      && Flooded(wires, old(Channels()), s, s.signalChannel, Channels()))
                && (Neighbors(wires, s) != {} && Neighbors(wires, t) == {} ==>
                      signalChannels == old(signalChannels) && Channels() == old(Channels())[t := null])
                && (Neighbors(wires, s) == {} && Neighbors(wires, t) != {} ==>
                      signalChannels == old(signalChannels) && Channels() == old(Channels())[s := null])
                && (Neighbors(wires, s) == {} && Neighbors(wires, t) == {} ==>
                      signalChannels == Remove(old(signalChannels), old(s.signalChannel))
                      && Channels() == old(Channels())[s := null][t := null])
    {
      if wire !in wires {
        return;
      }
      var edge := wires[wire];
      var port1, port2 := edge.source, edge.target;
      var rest := wires - {wire};
      IncidentNeighbors(rest, port1);
      IncidentNeighbors(rest, port2);
      var port1Connected := Incident(rest, port1) != {};
      var port2Connected := Incident(rest, port2) != {};
      if port1Connected && port2Connected {
        ghost var u1 := Member(Incident(rest, port1));
        ghost var u2 := Member(Incident(rest, port2));
        SplitChannel(wire, port1, port2, u1, u2);
      } else if port1Connected {
        ghost var u := Member(Incident(rest, port1));
        DropChannel(wire, port1, port2, u);
      } else if port2Connected {
        ghost var u := Member(Incident(rest, port2));
        DropChannel(wire, port2, port1, u);
      } else {
        DropBothChannels(wire, port1, port2);
      }
    }

    /** Forgets the wire; the channels stay as they are. */
    method RemoveEdge(wire: Wire)
      modifies this`wires
      ensures wires == old(wires) - {wire} && Channels() == old(Channels())
      ensures Ordered(old(wires)) ==> Ordered(wires)
    {
      wires := wires - {wire};
    }

    /**
     * `DisconnectWire` when both ends keep other wires: the source's side
     * floods with a new channel, which joins the tracked list.
     */
    method SplitChannel(wire: Wire, port1: Port, port2: Port, ghost u1: Wire, ghost u2: Wire)
      requires Valid() && wire in wires && port1 == wires[wire].source && port2 == wires[wire].target
      requires u1 in Incident(wires - {wire}, port1) && u2 in Incident(wires - {wire}, port2)
      modifies this`wires, this`signalChannels, vertices`signalChannel
      ensures Valid() && wires == old(wires) - {wire}
      ensures ChangedWithin(old(wires), old(Channels()), Channels(), port1)
      ensures port1.signalChannel != null && fresh(port1.signalChannel)
              && signalChannels == old(signalChannels) + [port1.signalChannel]
              && Flooded(wires, old(Channels()), port1, port1.signalChannel, Channels())
    {
      ghost var wires0, chans0, list0 := wires, Channels(), signalChannels;
      WellFormedEnds(wires0, chans0, wire);
      RemoveEdge(wire);
      var c := new Channel();
      AssignSignalChannelBFS(port1, c, false);
      DisconnectSplit(wires0, chans0, list0, null, wire, c, Channels(), signalChannels, u1, u2);
    }

    /**
     * `DisconnectWire` when only `keep` has other wires: `drop` loses its
     * channel and the tracked list stays.
     */
    method DropChannel(wire: Wire, keep: Port, drop: Port, ghost u: Wire)
      requires Valid() && wire in wires
      requires (keep == wires[wire].source && drop == wires[wire].target) || (keep == wires[wire].target && drop == wires[wire].source)
      requires u in Incident(wires - {wire}, keep) && Neighbors(wires - {wire}, drop) == {}
      modifies this`wires, this`signalChannels, vertices`signalChannel
      ensures Valid() && wires == old(wires) - {wire}
      ensures ChangedWithin(old(wires), old(Channels()), Channels(), old(wires)[wire].source)
      ensures signalChannels == old(signalChannels) && Channels() == old(Channels())[drop := null]
    {
      ghost var wires0, chans0, list0 := wires, Channels(), signalChannels;
      RemoveEdge(wire);
      AssignSignalChannelBFS(drop, null, false);
      DisconnectDropOne(wires0, chans0, list0, null, wire, keep, drop, u);
    }

    /**
     * `DisconnectWire` when neither end has other wires: both lose their
     * channel, and `port1`'s old one leaves the tracked list (one copy).
     */
    method DropBothChannels(wire: Wire, port1: Port, port2: Port)
      requires Valid() && wire in wires && port1 == wires[wire].source && port2 == wires[wire].target
      requires Neighbors(wires - {wire}, port1) == {} && Neighbors(wires - {wire}, port2) == {}
      modifies this`wires, this`signalChannels, vertices`signalChannel
      ensures Valid() && wires == old(wires) - {wire}
      ensures ChangedWithin(old(wires), old(Channels()), Channels(), port1)
      ensures signalChannels == Remove(old(signalChannels), old(port1.signalChannel))
      ensures Channels() == old(Channels())[port1 := null][port2 := null]
    {
      ghost var wires0, chans0, list0 := wires, Channels(), signalChannels;
      WellFormedEnds(wires0, chans0, wire);
      RemoveEdge(wire);
      AssignSignalChannelBFS(port1, null, true);
      AssignSignalChannelBFS(port2, null, false);
      TrackedAfterRemove(list0, chans0[port1], []);
      DisconnectDropBoth(wires0, chans0, list0, null, wire, signalChannels);
    }

    /**
     * Breadth-first flood fill: `signalChannel` lands on exactly the ports
     * reachable from `startPort`. First the old channel of `startPort` may
     * leave the tracked list (one copy) and a non-null new one joins it.
     */
    method AssignSignalChannelBFS(startPort: Port, signalChannel: Channel?, removeOldChannel: bool)
      requires startPort in vertices && EndsIn(wires, vertices)
      modifies this`signalChannels, vertices`signalChannel
      ensures signalChannels == (if removeOldChannel then Remove(old(signalChannels), old(startPort.signalChannel)) else old(signalChannels))
                                + (if signalChannel != null then [signalChannel] else [])
      ensures Flooded(wires, old(Channels()), startPort, signalChannel, Channels())
      ensures startPort.signalChannel == signalChannel
      ensures Neighbors(wires, startPort) == {} ==> Channels() == old(Channels())[startPort := signalChannel]
    {
      Retrack(startPort.signalChannel, signalChannel, removeOldChannel);
      Flood(startPort, signalChannel);
    }

    /** The tracked-list half of the flood fill; no port changes. */
    method Retrack(oldChannel: Channel?, signalChannel: Channel?, removeOldChannel: bool)
      modifies this`signalChannels
      ensures signalChannels == (if removeOldChannel then Remove(old(signalChannels), oldChannel) else old(signalChannels))
                                + (if signalChannel != null then [signalChannel] else [])
      ensures Channels() == old(Channels())
    {
      if removeOldChannel {
        signalChannels := Remove(signalChannels, oldChannel);
      }
      if signalChannel != null {
        signalChannels := signalChannels + [signalChannel];
      }
    }

    /** The port half of the flood fill: a port without wires directly, else a breadth-first search. */
    method Flood(startPort: Port, signalChannel: Channel?)
      requires startPort in vertices && EndsIn(wires, vertices)
      modifies vertices`signalChannel
      ensures Flooded(wires, old(Channels()), startPort, signalChannel, Channels())
      ensures startPort.signalChannel == signalChannel
      ensures Neighbors(wires, startPort) == {} ==> Channels() == old(Channels())[startPort := signalChannel]
    {
      ghost var before := Channels();
      ReachableSelf(wires, startPort);
      IncidentNeighbors(wires, startPort);
      if Incident(wires, startPort) == {} {
        startPort.signalChannel := signalChannel;
        forall p | p in vertices && Reachable(wires, startPort, p)
          ensures p == startPort
        {
          ReachableIsolated(wires, startPort, p);
        }
        ChannelsAre(before[startPort := signalChannel]);
        return;
      }
      ghost var component := Component(wires, vertices, startPort);
      forall x | x in component
        ensures Neighbors(wires, x) <= component
      {
        ComponentClosed(wires, vertices, startPort, x);
      }
      var reached := BreadthFirst(wires, vertices, startPort, component);
      ClosedIsComponent(wires, vertices, startPort, reached);
      SetChannel(reached, signalChannel);
    }

    /** The state of the flood fill's queue loop between two dequeues. */
    static ghost predicate Searching(wires: map<Wire, Edge<Port>>, vertices: set<Port>, startPort: Port, within: set<Port>,
                                     queue: seq<Port>, visited: set<Port>, reached: set<Port>)
    {
      && startPort in visited
      && (forall p :: p in visited ==> p in within && p in vertices)
      && (forall p :: p in reached ==> p in visited)
      && (forall q :: q in queue ==> q in visited)
      && (forall p :: p in visited ==> p in reached || p in queue)
      && (forall p, q :: p in reached && q in Neighbors(wires, p) ==> q in visited)
      && |visited| <= |vertices|
    }

    /**
     * The queue loop of the flood fill. The ports it dequeues hold
     * `startPort`, are closed under adjacency, and stay inside any set
     * `within` that has both properties: they are the least such set.
     */
    static method BreadthFirst(wires: map<Wire, Edge<Port>>, vertices: set<Port>, startPort: Port, ghost within: set<Port>)
      returns (reached: set<Port>)
      requires startPort in vertices && EndsIn(wires, vertices)
      requires startPort in within && forall x :: x in within ==> Neighbors(wires, x) <= within
      ensures startPort in reached && reached <= within && reached <= vertices
      ensures forall p :: p in reached ==> Neighbors(wires, p) <= reached
    {
      var queue := [startPort];
      var visited := {startPort};
      reached := {};
      while |queue| > 0
        invariant Searching(wires, vertices, startPort, within, queue, visited, reached)
        decreases |vertices| - |visited|, |queue|
      {
        queue, visited, reached := Dequeue(wires, vertices, startPort, within, queue, visited, reached);
      }
    }

    /** One turn of the queue loop: take the head, mark it reached, queue its unvisited neighbours. */
    static method Dequeue(wires: map<Wire, Edge<Port>>, vertices: set<Port>, startPort: Port, ghost within: set<Port>,
                          queue: seq<Port>, visited: set<Port>, reached: set<Port>)
      returns (queue': seq<Port>, visited': set<Port>, reached': set<Port>)
      requires EndsIn(wires, vertices) && forall x :: x in within ==> Neighbors(wires, x) <= within
      requires |queue| > 0 && Searching(wires, vertices, startPort, within, queue, visited, reached)
      ensures Searching(wires, vertices, startPort, within, queue', visited', reached')
      ensures reached' == reached + {queue[0]}
      ensures |visited'| > |visited| || (|visited'| == |visited| && |queue'| < |queue|)
    {
      var current := queue[0];
      queue' := queue[1..];
      reached' := reached + {current};
      NeighborsWithin(wires, vertices, current);
      queue', visited' := EnqueueNew(queue', visited, Neighbors(wires, current));
      SubsetNotLarger(visited', vertices);
    }

    /** Colours the ports `BreadthFirst` reached; the order does not matter. */
    static method SetChannel(reached: set<Port>, signalChannel: Channel?)
      modifies reached`signalChannel
      ensures forall p :: p in reached ==> p.signalChannel == signalChannel
    {
      var rest := reached;
      while rest != {}
        invariant rest <= reached
        invariant forall p :: p in reached - rest ==> p.signalChannel == signalChannel
        decreases rest
      {
        var p :| p in rest;
        p.signalChannel := signalChannel;
        rest := rest - {p};
      }
    }

    /** The inner step of the flood fill: queue, in some order, each port of `next` not yet visited. */
    static method EnqueueNew(queue: seq<Port>, visited: set<Port>, next: set<Port>) returns (queue': seq<Port>, visited': set<Port>)
      ensures visited' == visited + next
      ensures forall q :: q in queue' <==> q in queue || q in next - visited
      ensures |queue'| - |queue| == |visited'| - |visited| >= 0
    {
      queue', visited' := queue, visited;
      var rest := next;
      while rest != {}
        invariant rest <= next
        invariant forall x :: x in visited' <==> x in visited || (x in next && x !in rest)
        invariant forall q :: q in queue' <==> q in queue || (q in next && q !in rest && q !in visited)
        invariant |queue'| - |queue| == |visited'| - |visited| >= 0
        decreases rest
      {
        var n :| n in rest;
        rest := rest - {n};
        if n !in visited' {
          AddOneMore(visited', n);
          queue' := queue' + [n];
          visited' := visited' + {n};
        }
      }
    }

    /** Clears every tracked channel; under the invariant every port then reads 0. */
    method ResetSignalChannels()
      modifies set c | c in signalChannels
      ensures forall c :: c in signalChannels ==> c.signal == 0
      ensures Valid() ==> forall p :: p in vertices ==> p.Read() == 0
    {
      var i := 0;
      while i < |signalChannels|
        invariant 0 <= i <= |signalChannels|
        invariant forall j :: 0 <= j < i ==> signalChannels[j].signal == 0
      {
        signalChannels[i].Reset();
        i := i + 1;
      }
      if Valid() {
        forall p | p in vertices && p.IsConnected()
          ensures p.signalChannel.signal == 0
        {
          assert Channels()[p] == p.signalChannel;
          assert p.signalChannel in signalChannels;
        }
      }
    }
  }
}
