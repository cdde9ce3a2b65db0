/**
 * The undirected multigraph under every signal network: ports joined by
 * wires, each wire tagging one edge. Reachability is by paths of adjacent
 * ports. The module also states, over plain values, the channel invariant
 * the networks keep, and proves that each network operation preserves it.
 *
 * A network's channel assignment is a map `chans` from its ports (the
 * graph's vertices) to a channel reference; `none` is the reference that
 * stands for "no channel" (null in the classes).
 */
module PortGraphs {

  /** An undirected edge; `source` and `target` only name its two ends. */
  datatype Edge<V> = Edge(source: V, target: V)

  /** The ports joined to `p` by at least one wire (`AdjacentVertices`). */
  function Neighbors<W, V(==)>(wires: map<W, Edge<V>>, p: V): set<V>
  {
    (set w | w in wires && wires[w].source == p :: wires[w].target) +
    (set w | w in wires && wires[w].target == p :: wires[w].source)
  }

  /** The wires with `p` at one end (`AdjacentEdges`, by tag). */
  function Incident<W, V(==)>(wires: map<W, Edge<V>>, p: V): set<W>
  {
    set w | w in wires && (wires[w].source == p || wires[w].target == p)
  }

  /** `p` is an end of some wire. */
  ghost predicate IsEnd<W, V>(wires: map<W, Edge<V>>, older p: V)
  {
    exists w :: w in wires && (wires[w].source == p || wires[w].target == p)
  }

  /** Each port of `path` after the first is a neighbour of the one before. */
  ghost predicate IsChain<W, V>(wires: map<W, Edge<V>>, path: seq<V>)
  {
    forall i :: 0 <= i < |path| - 1 ==> path[i + 1] in Neighbors(wires, path[i])
  }

  /**
   * `path` is a walk from `start` along wires. (Its ports are `start` or
   * wire ends, which makes the quantifier of `Reachable` range only over
   * ports of the graph.)
   */
  ghost predicate IsPath<W, V>(wires: map<W, Edge<V>>, start: V, older path: seq<V>)
  {
    && |path| > 0 && path[0] == start
    && (forall i :: 0 <= i < |path| ==> path[i] == start || IsEnd(wires, path[i]))
    && IsChain(wires, path)
  }

  /** `b` lies in the connected component of `a`. */
  ghost predicate Reachable<W, V>(wires: map<W, Edge<V>>, a: V, b: V)
  {
    exists path :: IsPath(wires, a, path) && path[|path| - 1] == b
  }

  // ---------------------------------------------------------------------
  // Adjacency and reachability

  lemma NeighborsAreEnds<W, V>(wires: map<W, Edge<V>>, p: V, q: V)
    requires q in Neighbors(wires, p)
    ensures IsEnd(wires, p) && IsEnd(wires, q)
  {
    var w :| w in wires && ((wires[w].source == p && wires[w].target == q) || (wires[w].target == p && wires[w].source == q));
  }

  /** Every wire joins two members of `vs`. */
  ghost predicate EndsIn<W, V>(wires: map<W, Edge<V>>, vs: set<V>)
  {
    forall w :: w in wires ==> wires[w].source in vs && wires[w].target in vs
  }

  /** When every wire joins two members of `vs`, so do the neighbours of any port. */
  lemma NeighborsWithin<W, V>(wires: map<W, Edge<V>>, vs: set<V>, p: V)
    requires EndsIn(wires, vs)
    ensures Neighbors(wires, p) <= vs
  {
  }

  lemma ChainIsPath<W, V>(wires: map<W, Edge<V>>, start: V, path: seq<V>)
    requires |path| > 0 && path[0] == start && IsChain(wires, path)
    ensures IsPath(wires, start, path)
  {
    forall i | 0 <= i < |path|
      ensures path[i] == start || IsEnd(wires, path[i])
    {
      if i < |path| - 1 {
        NeighborsAreEnds(wires, path[i], path[i + 1]);
      } else if i > 0 {
        NeighborsAreEnds(wires, path[i - 1], path[i]);
      }
    }
  }

  lemma NeighborsSymmetric<W, V>(wires: map<W, Edge<V>>, a: V, b: V)
    ensures b in Neighbors(wires, a) <==> a in Neighbors(wires, b)
  {
    if b in Neighbors(wires, a) {
      var w :| w in wires && ((wires[w].source == a && wires[w].target == b) || (wires[w].target == a && wires[w].source == b));
    }
    if a in Neighbors(wires, b) {
      var w :| w in wires && ((wires[w].source == b && wires[w].target == a) || (wires[w].target == b && wires[w].source == a));
    }
  }

  /** A port has a neighbour exactly when some wire touches it. */
  lemma IncidentNeighbors<W, V>(wires: map<W, Edge<V>>, p: V)
    ensures Incident(wires, p) == {} <==> Neighbors(wires, p) == {}
  {
    if w :| w in Incident(wires, p) {
      if wires[w].source == p {
        assert wires[w].target in Neighbors(wires, p);
      } else {
        assert wires[w].source in Neighbors(wires, p);
      }
    }
    if q :| q in Neighbors(wires, p) {
      var w :| w in wires && ((wires[w].source == p && wires[w].target == q) || (wires[w].target == p && wires[w].source == q));
      assert w in Incident(wires, p);
    }
  }

  lemma ReachableSelf<W, V>(wires: map<W, Edge<V>>, a: V)
    ensures Reachable(wires, a, a)
  {
    ChainIsPath(wires, a, [a]);
  }

  lemma ReachableStep<W, V>(wires: map<W, Edge<V>>, a: V, b: V, c: V)
    requires Reachable(wires, a, b) && c in Neighbors(wires, b)
    ensures Reachable(wires, a, c)
  {
    var path :| IsPath(wires, a, path) && path[|path| - 1] == b;
    var longer := path + [c];
    assert forall i :: 0 <= i < |longer| - 1 ==> longer[i + 1] in Neighbors(wires, longer[i]) by {
      forall i | 0 <= i < |longer| - 1
        ensures longer[i + 1] in Neighbors(wires, longer[i])
      {
        if i < |path| - 1 {
          assert longer[i] == path[i] && longer[i + 1] == path[i + 1];
        }
      }
    }
    ChainIsPath(wires, a, longer);
  }

  lemma ReachableNeighbor<W, V>(wires: map<W, Edge<V>>, a: V, b: V)
    requires b in Neighbors(wires, a)
    ensures Reachable(wires, a, b)
  {
    ReachableSelf(wires, a);
    ReachableStep(wires, a, a, b);
  }

  lemma ReachableSymmetric<W, V>(wires: map<W, Edge<V>>, a: V, b: V)
    requires Reachable(wires, a, b)
    ensures Reachable(wires, b, a)
  {
    var path :| IsPath(wires, a, path) && path[|path| - 1] == b;
    var n := |path|;
    var back := seq(n, i requires 0 <= i < n => path[n - 1 - i]);
    forall i | 0 <= i < n - 1
      ensures back[i + 1] in Neighbors(wires, back[i])
    {
      assert back[i] == path[n - 1 - i] && back[i + 1] == path[n - 2 - i];
      assert path[n - 1 - i] in Neighbors(wires, path[n - 2 - i]);
      NeighborsSymmetric(wires, path[n - 2 - i], path[n - 1 - i]);
    }
    ChainIsPath(wires, b, back);
  }

  lemma ReachableTrans<W, V>(wires: map<W, Edge<V>>, a: V, b: V, c: V)
    requires Reachable(wires, a, b) && Reachable(wires, b, c)
    ensures Reachable(wires, a, c)
  {
    var p1 :| IsPath(wires, a, p1) && p1[|p1| - 1] == b;
    var p2 :| IsPath(wires, b, p2) && p2[|p2| - 1] == c;
    var joined := p1 + p2[1..];
    forall i | 0 <= i < |joined| - 1
      ensures joined[i + 1] in Neighbors(wires, joined[i])
    {
      if i < |p1| - 1 {
        assert joined[i] == p1[i] && joined[i + 1] == p1[i + 1];
      } else {
        var k := i - |p1| + 1;
        assert joined[i] == p2[k] && joined[i + 1] == p2[k + 1];
      }
    }
    ChainIsPath(wires, a, joined);
  }

  /** Two ports both reachable from a third are reachable from each other. */
  lemma ReachableViaCommon<W, V>(wires: map<W, Edge<V>>, m: V, a: V, b: V)
    requires Reachable(wires, m, a) && Reachable(wires, m, b)
    ensures Reachable(wires, a, b)
  {
    ReachableSymmetric(wires, m, a);
    ReachableTrans(wires, a, m, b);
  }

  /** A set of ports closed under adjacency contains the component of each of its ports. */
  lemma {:induction false} ClosedHoldsComponent<W, V>(wires: map<W, Edge<V>>, s: set<V>, a: V, b: V)
    requires a in s && forall x :: x in s ==> Neighbors(wires, x) <= s
    requires Reachable(wires, a, b)
    ensures b in s
  {
    var path :| IsPath(wires, a, path) && path[|path| - 1] == b;
    var i := 0;
    while i < |path| - 1
      invariant 0 <= i <= |path| - 1 && path[i] in s
    {
      assert path[i + 1] in Neighbors(wires, path[i]);
      i := i + 1;
    }
  }

  /** The ports of `vs` in the component of `a`. */
  ghost function Component<W, V>(wires: map<W, Edge<V>>, vs: set<V>, a: V): (r: set<V>)
    ensures r <= vs
  {
    set p | p in vs && Reachable(wires, a, p)
  }

  /** A component is closed under adjacency. */
  lemma ComponentClosed<W, V>(wires: map<W, Edge<V>>, vs: set<V>, a: V, x: V)
    requires EndsIn(wires, vs) && x in Component(wires, vs, a)
    ensures Neighbors(wires, x) <= Component(wires, vs, a)
  {
    NeighborsWithin(wires, vs, x);
    forall y | y in Neighbors(wires, x)
      ensures Reachable(wires, a, y)
    {
      ReachableStep(wires, a, x, y);
    }
  }

  /** A set of ports that holds `a`, lies in its component and is closed under adjacency is that component. */
  lemma ClosedIsComponent<W, V>(wires: map<W, Edge<V>>, vs: set<V>, a: V, s: set<V>)
    requires a in s && s <= Component(wires, vs, a)
    requires forall x :: x in s ==> Neighbors(wires, x) <= s
    ensures s == Component(wires, vs, a)
  {
    forall b | b in Component(wires, vs, a)
      ensures b in s
    {
      ClosedHoldsComponent(wires, s, a, b);
    }
  }

  /** A port without wires reaches only itself, and only itself reaches it. */
  lemma ReachableIsolated<W, V>(wires: map<W, Edge<V>>, a: V, b: V)
    requires Neighbors(wires, a) == {}
    requires Reachable(wires, a, b) || Reachable(wires, b, a)
    ensures b == a
  {
    if !Reachable(wires, a, b) {
      ReachableSymmetric(wires, b, a);
    }
    ClosedHoldsComponent(wires, {a}, a, b);
  }

  /** Adding wires never disconnects anything. */
  lemma ReachableMonotone<W, V>(wires: map<W, Edge<V>>, more: map<W, Edge<V>>, a: V, b: V)
    requires forall w :: w in wires ==> w in more && more[w] == wires[w]
    requires Reachable(wires, a, b)
    ensures Reachable(more, a, b)
  {
    var path :| IsPath(wires, a, path) && path[|path| - 1] == b;
    forall i | 0 <= i < |path| - 1
      ensures path[i + 1] in Neighbors(more, path[i])
    {
      assert path[i + 1] in Neighbors(wires, path[i]);
    }
    ChainIsPath(more, a, path);
  }

  /** Adjacency after a wire is added. */
  lemma NeighborsAdded<W, V>(wires: map<W, Edge<V>>, w: W, e: Edge<V>, p: V)
    requires w !in wires
    ensures Neighbors(wires[w := e], p)
         == Neighbors(wires, p) + (if e.source == p then {e.target} else {}) + (if e.target == p then {e.source} else {})
  {
    var more := wires[w := e];
    forall q | q in Neighbors(more, p)
      ensures q in Neighbors(wires, p) || (e.source == p && q == e.target) || (e.target == p && q == e.source)
    {
      var u :| u in more && ((more[u].source == p && more[u].target == q) || (more[u].target == p && more[u].source == q));
      if u != w {
        assert u in wires && wires[u] == more[u];
      }
    }
    forall q | q in Neighbors(wires, p)
      ensures q in Neighbors(more, p)
    {
      var u :| u in wires && ((wires[u].source == p && wires[u].target == q) || (wires[u].target == p && wires[u].source == q));
      assert u in more && more[u] == wires[u];
    }
    if e.source == p {
      assert more[w].source == p;
    }
    if e.target == p {
      assert more[w].target == p;
    }
  }

  /** Adjacency after a wire is removed: only its two ends can lose a neighbour. */
  lemma NeighborsRemoved<W, V>(wires: map<W, Edge<V>>, w: W, p: V)
    requires w in wires
    ensures Neighbors(wires - {w}, p) <= Neighbors(wires, p)
    ensures p != wires[w].source && p != wires[w].target ==> Neighbors(wires - {w}, p) == Neighbors(wires, p)
  {
    var rest := wires - {w};
    forall q | q in Neighbors(rest, p)
      ensures q in Neighbors(wires, p)
    {
      var u :| u in rest && ((rest[u].source == p && rest[u].target == q) || (rest[u].target == p && rest[u].source == q));
      assert u in wires && wires[u] == rest[u];
    }
    if p != wires[w].source && p != wires[w].target {
      forall q | q in Neighbors(wires, p)
        ensures q in Neighbors(rest, p)
      {
        var u :| u in wires && ((wires[u].source == p && wires[u].target == q) || (wires[u].target == p && wires[u].source == q));
        assert u != w;
        assert u in rest && rest[u] == wires[u];
      }
    }
  }

  /** A step that only the removed wire provided joins that wire's two ends. */
  lemma LostStep<W, V>(wires: map<W, Edge<V>>, w: W, a: V, b: V)
    requires w in wires && b in Neighbors(wires, a) && b !in Neighbors(wires - {w}, a)
    ensures a == wires[w].source || a == wires[w].target
  {
    var u :| u in wires && ((wires[u].source == a && wires[u].target == b) || (wires[u].target == a && wires[u].source == b));
    var rest := wires - {w};
    assert u in rest ==> b in Neighbors(rest, a);
  }

  /**
   * Removing one wire splits a component into at most two parts: whatever
   * `x` reached before, it still reaches, or it reaches one end of the wire.
   */
  lemma {:induction false} ReachableAfterRemoval<W, V>(wires: map<W, Edge<V>>, w: W, x: V, y: V)
    requires w in wires && Reachable(wires, x, y)
    ensures Reachable(wires - {w}, x, y) || Reachable(wires - {w}, x, wires[w].source)
         || Reachable(wires - {w}, x, wires[w].target)
  {
    var rest := wires - {w};
    var path :| IsPath(wires, x, path) && path[|path| - 1] == y;
    ReachableSelf(rest, x);
    var i := 0;
    while i < |path| - 1
      invariant 0 <= i <= |path| - 1
      invariant Reachable(rest, x, path[i]) || Reachable(rest, x, wires[w].source) || Reachable(rest, x, wires[w].target)
    {
      assert path[i + 1] in Neighbors(wires, path[i]);
      if Reachable(rest, x, path[i]) {
        if path[i + 1] in Neighbors(rest, path[i]) {
          ReachableStep(rest, x, path[i], path[i + 1]);
        } else {
          LostStep(wires, w, path[i], path[i + 1]);
        }
      }
      i := i + 1;
    }
  }

  // ---------------------------------------------------------------------
  // The channel invariant, over values

  /** Every wire joins two ports of the network. */
  ghost predicate WellFormed<W, V, C>(wires: map<W, Edge<V>>, chans: map<V, C>)
  {
    forall w :: w in wires ==> wires[w].source in chans && wires[w].target in chans
  }

  /** A port holds a channel exactly when at least one wire touches it. */
  ghost predicate ChannelIffWired<W, V, C>(wires: map<W, Edge<V>>, chans: map<V, C>, none: C)
  {
    forall p {:trigger Neighbors(wires, p)} :: p in chans ==> (chans[p] != none <==> Neighbors(wires, p) != {})
  }

  /** Every port holds a channel (the legacy network's rule). */
  ghost predicate AllChannelled<V, C>(chans: map<V, C>, none: C)
  {
    forall p :: p in chans ==> chans[p] != none
  }

  /** The two ends of every wire share a channel. */
  ghost predicate WiresAgree<W, V, C>(wires: map<W, Edge<V>>, chans: map<V, C>)
    requires WellFormed(wires, chans)
  {
    forall w :: w in wires ==> chans[wires[w].source] == chans[wires[w].target]
  }

  /** Ports in different components never share a channel. */
  ghost predicate ChannelsSeparate<W, V, C>(wires: map<W, Edge<V>>, chans: map<V, C>, none: C)
  {
    forall p, q {:trigger Reachable(wires, p, q)} :: p in chans && q in chans && chans[p] != none && chans[p] == chans[q] ==> Reachable(wires, p, q)
  }

  /** Every channel in use is in the tracked list (so a reset reaches it). */
  ghost predicate ChannelsTracked<V, C>(chans: map<V, C>, tracked: seq<C>, none: C)
  {
    forall p :: p in chans && chans[p] != none ==> chans[p] in tracked
  }

  /** The parts of the invariant both network variants keep. */
  ghost predicate Shared<W, V, C>(wires: map<W, Edge<V>>, chans: map<V, C>, tracked: seq<C>, none: C)
  {
    && WellFormed(wires, chans)
    && WiresAgree(wires, chans)
    && ChannelsSeparate(wires, chans, none)
    && ChannelsTracked(chans, tracked, none)
  }

  /** The invariant of the current networks: channel exactly on wired ports. */
  ghost predicate NetworkInvariant<W, V, C>(wires: map<W, Edge<V>>, chans: map<V, C>, tracked: seq<C>, none: C)
  {
    Shared(wires, chans, tracked, none) && ChannelIffWired(wires, chans, none)
  }

  /** The invariant of the legacy network: a channel on every port. */
  ghost predicate LegacyInvariant<W, V, C>(wires: map<W, Edge<V>>, chans: map<V, C>, tracked: seq<C>, none: C)
  {
    Shared(wires, chans, tracked, none) && AllChannelled(chans, none)
  }

  /** The map a flood fill from `start` with channel `c` produces. */
  ghost predicate Flooded<W, V, C>(wires: map<W, Edge<V>>, chans: map<V, C>, start: V, c: C, after: map<V, C>)
  {
    after.Keys == chans.Keys && forall p :: p in chans ==> after[p] == if Reachable(wires, start, p) then c else chans[p]
  }

  // ---------------------------------------------------------------------
  // Consequences of the invariant

  lemma AgreeOnNeighbor<W, V, C>(wires: map<W, Edge<V>>, chans: map<V, C>, a: V, b: V)
    requires WellFormed(wires, chans) && WiresAgree(wires, chans)
    requires b in Neighbors(wires, a)
    ensures a in chans && b in chans && chans[a] == chans[b]
  {
    var w :| w in wires && ((wires[w].source == a && wires[w].target == b) || (wires[w].target == a && wires[w].source == b));
  }

  /** Connected ports share a channel. */
  lemma {:induction false} SameComponentSameChannel<W, V, C>(wires: map<W, Edge<V>>, chans: map<V, C>, a: V, b: V)
    requires WellFormed(wires, chans) && WiresAgree(wires, chans)
    requires a in chans && Reachable(wires, a, b)
    ensures b in chans && chans[b] == chans[a]
  {
    var path :| IsPath(wires, a, path) && path[|path| - 1] == b;
    var i := 0;
    while i < |path| - 1
      invariant 0 <= i <= |path| - 1 && path[i] in chans && chans[path[i]] == chans[a]
    {
      AgreeOnNeighbor(wires, chans, path[i], path[i + 1]);
      i := i + 1;
    }
  }

  /**
   * The headline reading of the invariant: two ports that hold a channel
   * hold the same one exactly when they are in the same component.
   */
  lemma ChannelIsComponent<W, V, C>(wires: map<W, Edge<V>>, chans: map<V, C>, tracked: seq<C>, none: C, p: V, q: V)
    requires Shared(wires, chans, tracked, none)
    requires p in chans && q in chans && chans[p] != none
    ensures chans[p] == chans[q] <==> Reachable(wires, p, q)
  {
    if Reachable(wires, p, q) {
      SameComponentSameChannel(wires, chans, p, q);
    }
  }

  /** A port reached from a different port has a wire. */
  lemma ReachedPortIsWired<W, V>(wires: map<W, Edge<V>>, a: V, b: V)
    requires Reachable(wires, a, b) && a != b
    ensures Neighbors(wires, b) != {}
  {
    if Neighbors(wires, b) == {} {
      ReachableIsolated(wires, b, a);
    }
  }

  /** Flooding from a port without wires changes only that port (the leaf short-circuit). */
  lemma FloodIsolated<W, V, C>(wires: map<W, Edge<V>>, chans: map<V, C>, start: V, c: C, after: map<V, C>)
    requires start in chans && Neighbors(wires, start) == {}
    requires Flooded(wires, chans, start, c, after)
    ensures after == chans[start := c]
  {
    forall p | p in chans
      ensures after[p] == chans[start := c][p]
    {
      if Reachable(wires, start, p) {
        ReachableIsolated(wires, start, p);
      } else if p == start {
        ReachableSelf(wires, start);
      }
    }
  }

  // ---------------------------------------------------------------------
  // Operations keep the invariant

  /** A new port without a channel (`PortNetworkGraph.AddPort`). */
  lemma AddBarePortKeeps<W, V, C>(wires: map<W, Edge<V>>, chans: map<V, C>, tracked: seq<C>, none: C, p: V)
    requires NetworkInvariant(wires, chans, tracked, none) && p !in chans
    ensures NetworkInvariant(wires, chans[p := none], tracked, none)
  {
    var after := chans[p := none];
    assert Neighbors(wires, p) == {} by {
      if q :| q in Neighbors(wires, p) {
        var w :| w in wires && ((wires[w].source == p && wires[w].target == q) || (wires[w].target == p && wires[w].source == q));
      }
    }
    forall x, y | x in after && y in after && after[x] != none && after[x] == after[y]
      ensures Reachable(wires, x, y)
    {
      assert x != p && y != p;
    }
  }

  /** A new port with its own fresh channel (legacy `SignalNetworkGraph.AddPort`). */
  lemma AddChannelledPortKeeps<W, V, C>(wires: map<W, Edge<V>>, chans: map<V, C>, tracked: seq<C>, none: C, p: V, c: C)
    requires LegacyInvariant(wires, chans, tracked, none) && p !in chans
    requires c != none && forall x :: x in chans ==> chans[x] != c
    ensures LegacyInvariant(wires, chans[p := c], tracked + [c], none)
  {
    var after := chans[p := c];
    forall x, y | x in after && y in after && after[x] != none && after[x] == after[y]
      ensures Reachable(wires, x, y)
    {
      if x == p || y == p {
        assert x == y;
        ReachableSelf(wires, x);
      }
    }
  }

  /**
   * Flooding `a`'s component with `b`'s channel and then adding a wire
   * between `a` and `b` (`ConnectWire` when one side already has a channel,
   * and the legacy `ConnectWire`). `tracked'` may drop one copy of `a`'s
   * old channel and must hold `b`'s.
   */
  lemma FloodConnectKeeps<W, V, C>(wires: map<W, Edge<V>>, chans: map<V, C>, tracked: seq<C>, none: C,
                                        a: V, b: V, after: map<V, C>, tracked': seq<C>, w: W, e: Edge<V>)
    requires Shared(wires, chans, tracked, none)
    requires a in chans && b in chans && chans[b] != none && w !in wires
    requires (e.source == a && e.target == b) || (e.source == b && e.target == a)
    requires Flooded(wires, chans, a, chans[b], after)
    requires chans[b] in tracked' && forall c :: c in tracked && c != chans[a] ==> c in tracked'
    ensures Shared(wires[w := e], after, tracked', none)
  {
    var more := wires[w := e];
    var cb := chans[b];
    assert more[w] == e;
    forall p | p in chans && Reachable(wires, b, p)
      ensures after[p] == cb
    {
      SameComponentSameChannel(wires, chans, b, p);
    }
    // ends of each wire share a channel
    forall u | u in more
      ensures after[more[u].source] == after[more[u].target]
    {
      if u != w {
        var s, t := wires[u].source, wires[u].target;
        assert t in Neighbors(wires, s);
        NeighborsSymmetric(wires, s, t);
        if Reachable(wires, a, s) {
          ReachableStep(wires, a, s, t);
        }
        if Reachable(wires, a, t) {
          ReachableStep(wires, a, t, s);
        }
      } else {
        ReachableSelf(wires, a);
        ReachableSelf(wires, b);
      }
    }
    // same channel means connected
    assert b in Neighbors(more, a) by { NeighborsAdded(wires, w, e, a); }
    assert Reachable(more, a, b) by { ReachableNeighbor(more, a, b); }
    forall x, y | x in after && y in after && after[x] != none && after[x] == after[y]
      ensures Reachable(more, x, y)
    {
      if after[x] == cb {
        // each of x, y is joined in `more` to b
        JoinedToB(wires, chans, none, a, b, after, more, x);
        JoinedToB(wires, chans, none, a, b, after, more, y);
        ReachableSymmetric(more, y, b);
        ReachableTrans(more, x, b, y);
      } else {
        assert !Reachable(wires, a, x) && !Reachable(wires, a, y);
        assert Reachable(wires, x, y);
        ReachableMonotone(wires, more, x, y);
      }
    }
    // channels in use stay tracked
    assert forall p :: p in after && after[p] != none ==> after[p] in tracked';
  }

  /** `FloodConnectKeeps` also keeps "a channel exactly on wired ports". */
  lemma FloodConnectKeepsWired<W, V, C>(wires: map<W, Edge<V>>, chans: map<V, C>, none: C,
                                        a: V, b: V, after: map<V, C>, w: W, e: Edge<V>)
    requires WellFormed(wires, chans) && ChannelIffWired(wires, chans, none)
    requires a in chans && b in chans && chans[b] != none && w !in wires
    requires (e.source == a && e.target == b) || (e.source == b && e.target == a)
    requires Flooded(wires, chans, a, chans[b], after)
    ensures ChannelIffWired(wires[w := e], after, none)
  {
    forall p | p in after
      ensures after[p] != none <==> Neighbors(wires[w := e], p) != {}
    {
      NeighborsAdded(wires, w, e, p);
      if p == a {
        ReachableSelf(wires, a);
      } else if p != b && Reachable(wires, a, p) {
        ReachedPortIsWired(wires, a, p);
      }
    }
  }

  /** Helper of `FloodConnectKeeps`: a port that ends with `b`'s channel is joined to `b`. */
  lemma JoinedToB<W, V, C>(wires: map<W, Edge<V>>, chans: map<V, C>, none: C,
                              a: V, b: V, after: map<V, C>, more: map<W, Edge<V>>, x: V)
    requires WellFormed(wires, chans) && ChannelsSeparate(wires, chans, none)
    requires a in chans && b in chans && chans[b] != none
    requires Flooded(wires, chans, a, chans[b], after)
    requires forall u :: u in wires ==> u in more && more[u] == wires[u]
    requires Reachable(more, a, b)
    requires x in after && after[x] == chans[b]
    ensures Reachable(more, x, b)
  {
    if Reachable(wires, a, x) {
      ReachableMonotone(wires, more, a, x);
      ReachableSymmetric(more, a, x);
      ReachableTrans(more, x, a, b);
    } else {
      assert Reachable(wires, x, b);
      ReachableMonotone(wires, more, x, b);
    }
  }

  /**
   * Both ends of a new wire had no channel: both get one fresh channel
   * (`ConnectWire`'s third branch).
   */
  lemma FreshPairKeeps<W, V, C>(wires: map<W, Edge<V>>, chans: map<V, C>, tracked: seq<C>, none: C,
                                    n: C, after: map<V, C>, tracked': seq<C>, w: W, e: Edge<V>)
    requires NetworkInvariant(wires, chans, tracked, none)
    requires e.source in chans && e.target in chans && w !in wires
    requires chans[e.source] == none && chans[e.target] == none
    requires n != none && forall p :: p in chans ==> chans[p] != n
    requires after == chans[e.source := n][e.target := n]
    requires n in tracked' && forall c :: c in tracked ==> c in tracked'
    ensures NetworkInvariant(wires[w := e], after, tracked', none)
  {
    var more := wires[w := e];
    assert more[w] == e;
    assert Neighbors(wires, e.source) == {} && Neighbors(wires, e.target) == {};
    forall p | p in after
      ensures after[p] != none <==> Neighbors(more, p) != {}
    {
      NeighborsAdded(wires, w, e, p);
    }
    forall u | u in more
      ensures after[more[u].source] == after[more[u].target]
    {
      if u != w {
        var s, t := wires[u].source, wires[u].target;
        assert t in Neighbors(wires, s) && s in Neighbors(wires, t);
      }
    }
    assert e.target in Neighbors(more, e.source) by { NeighborsAdded(wires, w, e, e.source); }
    ReachableNeighbor(more, e.source, e.target);
    ReachableSymmetric(more, e.source, e.target);
    ReachableSelf(more, e.source);
    ReachableSelf(more, e.target);
    forall x, y | x in after && y in after && after[x] != none && after[x] == after[y]
      ensures Reachable(more, x, y)
    {
      if after[x] != n {
        ReachableMonotone(wires, more, x, y);
      }
    }
  }

  /**
   * After a wire is removed, a fresh channel is flooded from one of its ends
   * (`DisconnectWire` when both ends keep wires, and the legacy
   * `DisconnectWire`).
   */
  lemma SplitKeeps<W, V, C>(wires: map<W, Edge<V>>, chans: map<V, C>, tracked: seq<C>, none: C,
                                w: W, start: V, n: C, after: map<V, C>, tracked': seq<C>)
    requires Shared(wires, chans, tracked, none)
    requires w in wires && (start == wires[w].source || start == wires[w].target)
    requires n != none && forall p :: p in chans ==> chans[p] != n
    requires Flooded(wires - {w}, chans, start, n, after)
    requires n in tracked' && forall c :: c in tracked ==> c in tracked'
    ensures Shared(wires - {w}, after, tracked', none)
  {
    var rest := wires - {w};
    var s, t := wires[w].source, wires[w].target;
    var other := if start == s then t else s;
    assert t in Neighbors(wires, s);
    forall u | u in rest
      ensures after[rest[u].source] == after[rest[u].target]
    {
      var a, b := rest[u].source, rest[u].target;
      assert u in wires && wires[u] == rest[u];
      assert b in Neighbors(rest, a);
      NeighborsSymmetric(rest, a, b);
      if Reachable(rest, start, a) {
        ReachableStep(rest, start, a, b);
      }
      if Reachable(rest, start, b) {
        ReachableStep(rest, start, b, a);
      }
    }
    forall x, y | x in after && y in after && after[x] != none && after[x] == after[y]
      ensures Reachable(rest, x, y)
    {
      if after[x] == n {
        ReachableViaCommon(rest, start, x, y);
      } else {
        SplitSide(wires, chans, none, w, start, n, after, x);
        SplitSide(wires, chans, none, w, start, n, after, y);
        if chans[x] == chans[s] {
          // both reach the end the flood did not start from
          ReachableSymmetric(rest, y, other);
          ReachableTrans(rest, x, other, y);
        }
      }
    }
  }

  /**
   * Helper of `SplitKeeps`: a port the flood left alone either keeps a
   * channel other than the removed wire's and reaches nothing new, or is
   * joined to the end the flood did not start from.
   */
  lemma SplitSide<W, V, C>(wires: map<W, Edge<V>>, chans: map<V, C>, none: C,
                               w: W, start: V, n: C, after: map<V, C>, x: V)
    requires WellFormed(wires, chans) && WiresAgree(wires, chans) && ChannelsSeparate(wires, chans, none)
    requires w in wires && (start == wires[w].source || start == wires[w].target)
    requires Flooded(wires - {w}, chans, start, n, after)
    requires x in chans && !Reachable(wires - {w}, start, x) && chans[x] != none
    ensures chans[x] == chans[wires[w].source] ==>
              Reachable(wires - {w}, x, if start == wires[w].source then wires[w].target else wires[w].source)
    ensures chans[x] != chans[wires[w].source] ==>
              forall y :: y in chans && chans[y] == chans[x] ==> Reachable(wires - {w}, x, y)
  {
    var rest := wires - {w};
    var s, t := wires[w].source, wires[w].target;
    assert s in chans && t in chans && chans[s] == chans[t];
    if chans[x] == chans[s] {
      assert Reachable(wires, x, s);
      ReachableAfterRemoval(wires, w, x, s);
      if Reachable(rest, x, start) {
        ReachableSymmetric(rest, x, start);
      }
    } else {
      forall y | y in chans && chans[y] == chans[x]
        ensures Reachable(rest, x, y)
      {
        assert Reachable(wires, x, y);
        ReachableAfterRemoval(wires, w, x, y);
        if Reachable(rest, x, s) {
          ReachableMonotone(rest, wires, x, s);
          SameComponentSameChannel(wires, chans, x, s);
        }
        if Reachable(rest, x, t) {
          ReachableMonotone(rest, wires, x, t);
          SameComponentSameChannel(wires, chans, x, t);
        }
      }
    }
  }

  /**
   * After a wire is removed with both ends still wired, flooding a fresh
   * channel keeps "a channel exactly on wired ports".
   */
  lemma SplitKeepsWired<W, V, C>(wires: map<W, Edge<V>>, chans: map<V, C>, none: C,
                                     w: W, start: V, n: C, after: map<V, C>)
    requires WellFormed(wires, chans) && ChannelIffWired(wires, chans, none)
    requires w in wires && (start == wires[w].source || start == wires[w].target)
    requires Neighbors(wires - {w}, wires[w].source) != {} && Neighbors(wires - {w}, wires[w].target) != {}
    requires n != none && Flooded(wires - {w}, chans, start, n, after)
    ensures ChannelIffWired(wires - {w}, after, none)
  {
    var rest := wires - {w};
    forall p | p in after
      ensures after[p] != none <==> Neighbors(rest, p) != {}
    {
      NeighborsRemoved(wires, w, p);
      if p == wires[w].source || p == wires[w].target {
        assert wires[w].target in Neighbors(wires, wires[w].source);
        assert wires[w].source in Neighbors(wires, wires[w].target);
      } else if Reachable(rest, start, p) {
        ReachedPortIsWired(rest, start, p);
      }
    }
  }

  /**
   * After a wire is removed, its end `drop` has no wire left and loses its
   * channel while the other end `keep` still has wires (`DisconnectWire`'s
   * one-sided branches).
   */
  lemma DropOneEndKeeps<W, V, C>(wires: map<W, Edge<V>>, chans: map<V, C>, tracked: seq<C>, none: C,
                                     w: W, keep: V, drop: V)
    requires NetworkInvariant(wires, chans, tracked, none)
    requires w in wires
    requires (keep == wires[w].source && drop == wires[w].target) || (keep == wires[w].target && drop == wires[w].source)
    requires Neighbors(wires - {w}, keep) != {} && Neighbors(wires - {w}, drop) == {}
    ensures NetworkInvariant(wires - {w}, chans[drop := none], tracked, none)
  {
    var rest := wires - {w};
    var after := chans[drop := none];
    DropOneWired(wires, chans, none, w, keep, drop);
    forall x, y | x in after && y in after && after[x] != none && after[x] == after[y]
      ensures Reachable(rest, x, y)
    {
      assert x != drop && y != drop;
      DropOneSeparate(wires, chans, none, w, keep, drop, x, y);
    }
  }

  /** Helper of `DropOneEndKeeps`: the parts of the invariant about single wires. */
  lemma DropOneWired<W, V, C>(wires: map<W, Edge<V>>, chans: map<V, C>, none: C, w: W, keep: V, drop: V)
    requires WellFormed(wires, chans) && WiresAgree(wires, chans) && ChannelIffWired(wires, chans, none)
    requires w in wires
    requires (keep == wires[w].source && drop == wires[w].target) || (keep == wires[w].target && drop == wires[w].source)
    requires Neighbors(wires - {w}, keep) != {} && Neighbors(wires - {w}, drop) == {}
    ensures WellFormed(wires - {w}, chans[drop := none]) && WiresAgree(wires - {w}, chans[drop := none])
    ensures ChannelIffWired(wires - {w}, chans[drop := none], none)
  {
    var rest := wires - {w};
    var after := chans[drop := none];
    assert drop in chans && keep in chans;
    assert drop in Neighbors(wires, keep);
    assert keep != drop;
    forall p | p in after
      ensures after[p] != none <==> Neighbors(rest, p) != {}
    {
      NeighborsRemoved(wires, w, p);
    }
    forall u | u in rest
      ensures after[rest[u].source] == after[rest[u].target]
    {
      assert u in wires && wires[u] == rest[u];
      assert rest[u].target in Neighbors(rest, rest[u].source);
      assert rest[u].source in Neighbors(rest, rest[u].target);
    }
  }

  /** Helper of `DropOneEndKeeps`: two ports other than `drop` that share a channel stay connected. */
  lemma DropOneSeparate<W, V, C>(wires: map<W, Edge<V>>, chans: map<V, C>, none: C, w: W, keep: V, drop: V, x: V, y: V)
    requires WellFormed(wires, chans) && WiresAgree(wires, chans) && ChannelsSeparate(wires, chans, none)
    requires w in wires
    requires (keep == wires[w].source && drop == wires[w].target) || (keep == wires[w].target && drop == wires[w].source)
    requires Neighbors(wires - {w}, drop) == {}
    requires keep in chans && x in chans && y in chans && x != drop && y != drop
    requires chans[x] != none && chans[x] == chans[y]
    ensures Reachable(wires - {w}, x, y)
  {
    var rest := wires - {w};
    OtherSideStays(wires, chans, none, w, keep, drop, x);
    OtherSideStays(wires, chans, none, w, keep, drop, y);
    if chans[x] == chans[keep] {
      ReachableSymmetric(rest, y, keep);
      ReachableTrans(rest, x, keep, y);
    } else {
      assert Reachable(wires, x, y);
      ReachableAfterRemoval(wires, w, x, y);
      if Reachable(rest, x, keep) {
        ReachableMonotone(rest, wires, x, keep);
        SameComponentSameChannel(wires, chans, x, keep);
      }
      if Reachable(rest, x, drop) {
        ReachableIsolated(rest, drop, x);
      }
    }
  }

  lemma OtherSideStays<W, V, C>(wires: map<W, Edge<V>>, chans: map<V, C>, none: C, w: W, keep: V, drop: V, x: V)
    requires WellFormed(wires, chans) && ChannelsSeparate(wires, chans, none)
    requires w in wires
    requires (keep == wires[w].source && drop == wires[w].target) || (keep == wires[w].target && drop == wires[w].source)
    requires Neighbors(wires - {w}, drop) == {}
    requires keep in chans && x in chans && x != drop && chans[x] != none
    ensures chans[x] == chans[keep] ==> Reachable(wires - {w}, x, keep)
  {
    var rest := wires - {w};
    if chans[x] == chans[keep] {
      assert Reachable(wires, x, keep);
      ReachableAfterRemoval(wires, w, x, keep);
      if Reachable(rest, x, drop) {
        ReachableIsolated(rest, drop, x);
      }
    }
  }

  /**
   * After a wire is removed, neither end has a wire left and both lose
   * their channel (`DisconnectWire`'s last branch); one copy of the channel
   * may leave the tracked list.
   */
  lemma DropBothEndsKeeps<W, V, C>(wires: map<W, Edge<V>>, chans: map<V, C>, tracked: seq<C>, none: C,
                                       w: W, tracked': seq<C>)
    requires NetworkInvariant(wires, chans, tracked, none)
    requires w in wires
    requires Neighbors(wires - {w}, wires[w].source) == {} && Neighbors(wires - {w}, wires[w].target) == {}
    requires forall c :: c in tracked && c != chans[wires[w].source] ==> c in tracked'
    ensures NetworkInvariant(wires - {w}, chans[wires[w].source := none][wires[w].target := none], tracked', none)
    ensures forall p :: p in chans && p != wires[w].source && p != wires[w].target ==> chans[p] != chans[wires[w].source]
  {
    var rest := wires - {w};
    var s, t := wires[w].source, wires[w].target;
    var after := chans[s := none][t := none];
    assert t in Neighbors(wires, s);
    forall p | p in chans && p != s && p != t
      ensures chans[p] != chans[s]
    {
      if chans[p] == chans[s] {
        assert Reachable(wires, p, s);
        ReachableAfterRemoval(wires, w, p, s);
        if Reachable(rest, p, s) {
          ReachableIsolated(rest, s, p);
        } else {
          ReachableIsolated(rest, t, p);
        }
      }
    }
    forall p | p in after
      ensures after[p] != none <==> Neighbors(rest, p) != {}
    {
      NeighborsRemoved(wires, w, p);
    }
    forall u | u in rest
      ensures after[rest[u].source] == after[rest[u].target]
    {
      assert u in wires && wires[u] == rest[u];
      assert rest[u].target in Neighbors(rest, rest[u].source);
      assert rest[u].source in Neighbors(rest, rest[u].target);
    }
    forall x, y | x in after && y in after && after[x] != none && after[x] == after[y]
      ensures Reachable(rest, x, y)
    {
      assert Reachable(wires, x, y);
      ReachableAfterRemoval(wires, w, x, y);
      if Reachable(rest, x, s) {
        ReachableMonotone(rest, wires, x, s);
        SameComponentSameChannel(wires, chans, x, s);
      }
      if Reachable(rest, x, t) {
        ReachableMonotone(rest, wires, x, t);
        SameComponentSameChannel(wires, chans, x, t);
      }
    }
  }

  /**
   * A port with no wire leaves the network (`RemoveVertex` at the end of
   * `RemovePort`); one copy of its channel may leave the tracked list.
   */
  lemma RemoveIsolatedKeeps<W, V, C>(wires: map<W, Edge<V>>, chans: map<V, C>, tracked: seq<C>, none: C,
                                         p: V, tracked': seq<C>)
    requires Shared(wires, chans, tracked, none)
    requires p in chans && Neighbors(wires, p) == {}
    requires forall c :: c in tracked && c != chans[p] ==> c in tracked'
    ensures Shared(wires, chans - {p}, tracked', none)
    ensures ChannelIffWired(wires, chans, none) ==> ChannelIffWired(wires, chans - {p}, none)
    ensures AllChannelled(chans, none) ==> AllChannelled(chans - {p}, none)
  {
    var after := chans - {p};
    forall w | w in wires
      ensures wires[w].source in after && wires[w].target in after
    {
      assert wires[w].target in Neighbors(wires, wires[w].source);
      assert wires[w].source in Neighbors(wires, wires[w].target);
    }
    forall q | q in after && after[q] != none
      ensures after[q] in tracked'
    {
      if chans[q] == chans[p] {
        assert Reachable(wires, p, q);
        ReachableIsolated(wires, p, q);
      }
    }
  }

  // ---------------------------------------------------------------------
  // Whole operations: one lemma per branch of connect and disconnect

  /** The channel map after joining the components of `a` and `b` under channel `c`. */
  ghost function Joined<W, V, C>(wires: map<W, Edge<V>>, chans: map<V, C>, a: V, b: V, c: C): map<V, C>
  {
    map p | p in chans :: if Reachable(wires, a, p) || Reachable(wires, b, p) then c else chans[p]
  }

  /** Between `chans` and `after` only ports of the component of `a` changed. */
  ghost predicate ChangedWithin<W, V, C>(wires: map<W, Edge<V>>, chans: map<V, C>, after: map<V, C>, a: V)
  {
    forall p :: p in chans && p in after && after[p] != chans[p] ==> Reachable(wires, a, p)
  }

  /** A map that keeps the invariant's ends in its keys also keeps them as vertices. */
  lemma WellFormedEnds<W, V, C>(wires: map<W, Edge<V>>, chans: map<V, C>, w: W)
    requires WellFormed(wires, chans)
    ensures EndsIn(wires, chans.Keys) && EndsIn(wires - {w}, chans.Keys)
  {
  }

  /**
   * Connecting where `keep` already has a channel: flooding the component
   * of the other end `start` with it keeps the invariant and leaves both
   * components on `keep`'s channel.
   */
  lemma ConnectChannelled<W, V, C>(wires: map<W, Edge<V>>, chans: map<V, C>, tracked: seq<C>, none: C,
                                   start: V, keep: V, after: map<V, C>, tracked': seq<C>, w: W, e: Edge<V>)
    requires NetworkInvariant(wires, chans, tracked, none)
    requires start in chans && keep in chans && chans[keep] != none && w !in wires
    requires (e.source == start && e.target == keep) || (e.source == keep && e.target == start)
    requires Flooded(wires, chans, start, chans[keep], after)
    requires chans[keep] in tracked' && forall c :: c in tracked && c != chans[start] ==> c in tracked'
    ensures NetworkInvariant(wires[w := e], after, tracked', none)
    ensures after == Joined(wires, chans, start, keep, chans[keep]) == Joined(wires, chans, keep, start, chans[keep])
    ensures after[start] == after[keep] == chans[keep]
  {
    ReachableSelf(wires, start);
    FloodConnectKeeps(wires, chans, tracked, none, start, keep, after, tracked', w, e);
    FloodConnectKeepsWired(wires, chans, none, start, keep, after, w, e);
    FloodJoins(wires, chans, start, keep, after);
  }

  /** Flooding the component of `a` with `b`'s channel leaves both components on that channel. */
  lemma FloodJoins<W, V, C>(wires: map<W, Edge<V>>, chans: map<V, C>, a: V, b: V, after: map<V, C>)
    requires WellFormed(wires, chans) && WiresAgree(wires, chans)
    requires b in chans && Flooded(wires, chans, a, chans[b], after)
    ensures after == Joined(wires, chans, a, b, chans[b]) == Joined(wires, chans, b, a, chans[b])
  {
    forall p | p in chans && Reachable(wires, b, p)
      ensures after[p] == chans[b]
    {
      SameComponentSameChannel(wires, chans, b, p);
    }
  }

  /** Connecting two bare ports: both take the fresh channel `n`, and nothing else changes. */
  lemma ConnectFresh<W, V, C>(wires: map<W, Edge<V>>, chans: map<V, C>, tracked: seq<C>, none: C,
                              a: V, b: V, n: C, after: map<V, C>, tracked': seq<C>, w: W, e: Edge<V>)
    requires NetworkInvariant(wires, chans, tracked, none)
    requires a in chans && b in chans && w !in wires
    requires (e.source == a && e.target == b) || (e.source == b && e.target == a)
    requires chans[a] == none && chans[b] == none
    requires n != none && forall p :: p in chans ==> chans[p] != n
    requires after == chans[a := n][b := n]
    requires n in tracked' && forall c :: c in tracked ==> c in tracked'
    ensures NetworkInvariant(wires[w := e], after, tracked', none)
    ensures after == Joined(wires, chans, a, b, n) == Joined(wires, chans, b, a, n)
  {
    assert after == chans[e.source := n][e.target := n];
    FreshPairKeeps(wires, chans, tracked, none, n, after, tracked', w, e);
    IsolatedJoin(wires, chans, a, b, n);
  }

  /** Joining two ports without wires changes just those two. */
  lemma IsolatedJoin<W, V, C>(wires: map<W, Edge<V>>, chans: map<V, C>, a: V, b: V, n: C)
    requires a in chans && b in chans && Neighbors(wires, a) == {} && Neighbors(wires, b) == {}
    ensures chans[a := n][b := n] == Joined(wires, chans, a, b, n) == Joined(wires, chans, b, a, n)
  {
    forall p | p in chans && (Reachable(wires, a, p) || Reachable(wires, b, p))
      ensures p == a || p == b
    {
      if Reachable(wires, a, p) {
        ReachableIsolated(wires, a, p);
      } else {
        ReachableIsolated(wires, b, p);
      }
    }
    ReachableSelf(wires, a);
    ReachableSelf(wires, b);
  }

  /**
   * Disconnecting a wire whose ends both keep other wires: the component of
   * its source takes the fresh channel `n`.
   */
  lemma DisconnectSplit<W, V, C>(wires: map<W, Edge<V>>, chans: map<V, C>, tracked: seq<C>, none: C,
                                 w: W, n: C, after: map<V, C>, tracked': seq<C>, u1: W, u2: W)
    requires NetworkInvariant(wires, chans, tracked, none) && w in wires
    requires u1 in Incident(wires - {w}, wires[w].source) && u2 in Incident(wires - {w}, wires[w].target)
    requires n != none && forall p :: p in chans ==> chans[p] != n
    requires Flooded(wires - {w}, chans, wires[w].source, n, after)
    requires n in tracked' && forall c :: c in tracked ==> c in tracked'
    ensures NetworkInvariant(wires - {w}, after, tracked', none)
    ensures ChangedWithin(wires, chans, after, wires[w].source)
  {
    IncidentNeighbors(wires - {w}, wires[w].source);
    IncidentNeighbors(wires - {w}, wires[w].target);
    SplitKeeps(wires, chans, tracked, none, w, wires[w].source, n, after, tracked');
    SplitKeepsWired(wires, chans, none, w, wires[w].source, n, after);
    forall p | p in chans && Reachable(wires - {w}, wires[w].source, p)
      ensures Reachable(wires, wires[w].source, p)
    {
      ReachableMonotone(wires - {w}, wires, wires[w].source, p);
    }
  }

  /** Disconnecting a wire that was the last one on `drop` only: `drop` loses its channel. */
  lemma DisconnectDropOne<W, V, C>(wires: map<W, Edge<V>>, chans: map<V, C>, tracked: seq<C>, none: C,
                                   w: W, keep: V, drop: V, u: W)
    requires NetworkInvariant(wires, chans, tracked, none) && w in wires
    requires (keep == wires[w].source && drop == wires[w].target) || (keep == wires[w].target && drop == wires[w].source)
    requires u in Incident(wires - {w}, keep) && Neighbors(wires - {w}, drop) == {}
    ensures NetworkInvariant(wires - {w}, chans[drop := none], tracked, none)
    ensures ChangedWithin(wires, chans, chans[drop := none], wires[w].source)
  {
    IncidentNeighbors(wires - {w}, keep);
    DropOneEndKeeps(wires, chans, tracked, none, w, keep, drop);
    assert wires[w].target in Neighbors(wires, wires[w].source);
    ReachableNeighbor(wires, wires[w].source, wires[w].target);
    ReachableSelf(wires, wires[w].source);
  }

  /**
   * Disconnecting the only wire of both ends: both lose their channel,
   * which no other port held.
   */
  lemma DisconnectDropBoth<W, V, C>(wires: map<W, Edge<V>>, chans: map<V, C>, tracked: seq<C>, none: C,
                                    w: W, tracked': seq<C>)
    requires NetworkInvariant(wires, chans, tracked, none) && w in wires
    requires Neighbors(wires - {w}, wires[w].source) == {} && Neighbors(wires - {w}, wires[w].target) == {}
    requires forall c :: c in tracked && c != chans[wires[w].source] ==> c in tracked'
    ensures NetworkInvariant(wires - {w}, chans[wires[w].source := none][wires[w].target := none], tracked', none)
    ensures ChangedWithin(wires, chans, chans[wires[w].source := none][wires[w].target := none], wires[w].source)
  {
    DropBothEndsKeeps(wires, chans, tracked, none, w, tracked');
    assert wires[w].target in Neighbors(wires, wires[w].source);
    ReachableNeighbor(wires, wires[w].source, wires[w].target);
    ReachableSelf(wires, wires[w].source);
  }

  /**
   * Disconnecting the wires of `port` one by one: each step changes only
   * what its wire's source reached, which `port` reached before the first.
   */
  lemma ChangedWithinStep<W, V, C>(wires0: map<W, Edge<V>>, wires: map<W, Edge<V>>, w: W, port: V,
                                   chans0: map<V, C>, chans1: map<V, C>, chans2: map<V, C>)
    requires forall u :: u in wires ==> u in wires0 && wires0[u] == wires[u]
    requires w in wires && (wires[w].source == port || wires[w].target == port)
    requires chans1.Keys == chans0.Keys
    requires ChangedWithin(wires0, chans0, chans1, port)
    requires ChangedWithin(wires, chans1, chans2, wires[w].source)
    ensures ChangedWithin(wires0, chans0, chans2, port)
  {
    forall p | p in chans0 && p in chans2 && chans2[p] != chans0[p]
      ensures Reachable(wires0, port, p)
    {
      if chans2[p] != chans1[p] {
        var s := wires[w].source;
        if wires[w].target == port {
          assert s in Neighbors(wires, port);
          ReachableNeighbor(wires, port, s);
          ReachableTrans(wires, port, s, p);
        }
        ReachableMonotone(wires, wires0, port, p);
      }
    }
  }
}
