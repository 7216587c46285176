/**
 * The path highlighting of `src/components/SupplyChainVisualization.tsx`:
 * which edges are drawn and which of them are highlighted as part of the
 * optimised path, which nodes get a ring, the vertices of the dashed path
 * overlay, and whether the legend lists the path. Canvas calls (positions,
 * colours, line widths) are left out; only these decisions are modelled.
 */
module Visualization {
  import opened Wrappers
  import opened SupplyChainModel

  /** The callback of `optimizedPath.some(...)` from position `index` on. */
  function SomeConsecutive(path: seq<int>, from: int, to: int, index: nat): (b: bool)
    requires index <= |path|
    ensures b <==> exists i :: index <= i < |path| - 1 && path[i] == from && path[i + 1] == to
    decreases |path| - index
  {
    if index == |path| then false
    else (index < |path| - 1 && path[index] == from && path[index + 1] == to)
         || SomeConsecutive(path, from, to, index + 1)
  }

  /** `isOptimizedEdge`: the path holds `from` immediately followed by `to`. */
  function IsOptimizedEdge(path: seq<int>, from: int, to: int): (b: bool)
    ensures b <==> exists i :: 0 <= i < |path| - 1 && path[i] == from && path[i + 1] == to
    ensures |path| < 2 ==> !b
  {
    |path| > 1 && SomeConsecutive(path, from, to, 0)
  }

  /** Matching follows the direction of travel: a path that goes from `a` to
      `b` and never from `b` to `a` highlights the edge `a -> b` only. */
  lemma DirectionSensitive(path: seq<int>, a: int, b: int, i: nat)
    requires i < |path| - 1 && path[i] == a && path[i + 1] == b
    requires forall k :: 0 <= k < |path| - 1 ==> !(path[k] == b && path[k + 1] == a)
    ensures IsOptimizedEdge(path, a, b)
    ensures !IsOptimizedEdge(path, b, a)
  {
  }

  /** `optimizedPath.includes(node.id)`: the node gets a ring. */
  predicate IsRinged(path: seq<int>, id: int)
  {
    id in path
  }

  /** Both ends of a highlighted edge are ringed. */
  lemma HighlightedEndsRinged(path: seq<int>, from: int, to: int)
    requires IsOptimizedEdge(path, from, to)
    ensures IsRinged(path, from) && IsRinged(path, to)
  {
  }

  // ---------------------------------------------------------------------------
  // Edges

  /** One edge drawn on the canvas, and whether it is highlighted. */
  datatype Stroke = Stroke(edge: SupplyChainEdge, highlighted: bool)

  /** The edge loop: an edge with a missing endpoint is skipped; every other
      edge is drawn, highlighted exactly when it is an optimised edge. */
  function DrawnEdges(nodes: map<int, SupplyChainNode>, edges: seq<SupplyChainEdge>, path: seq<int>)
    : (strokes: seq<Stroke>)
    ensures |strokes| <= |edges|
    ensures forall s :: s in strokes ==>
      s.edge in edges && s.edge.from in nodes && s.edge.to in nodes
      && s.highlighted == IsOptimizedEdge(path, s.edge.from, s.edge.to)
    ensures forall e :: e in edges && e.from in nodes && e.to in nodes ==>
      Stroke(e, IsOptimizedEdge(path, e.from, e.to)) in strokes
  {
    if edges == [] then []
    else
      var e := edges[0];
      var rest := DrawnEdges(nodes, edges[1..], path);
      assert forall f :: f in edges <==> f == e || f in edges[1..];
      if e.from !in nodes || e.to !in nodes then rest
      else [Stroke(e, IsOptimizedEdge(path, e.from, e.to))] + rest
  }

  /** When every endpoint is a node, every edge is drawn, in order. */
  lemma {:induction false} AllPresentAllDrawn(nodes: map<int, SupplyChainNode>,
                                              edges: seq<SupplyChainEdge>, path: seq<int>)
    requires forall e :: e in edges ==> e.from in nodes && e.to in nodes
    ensures |DrawnEdges(nodes, edges, path)| == |edges|
    ensures forall k :: 0 <= k < |edges| ==> DrawnEdges(nodes, edges, path)[k].edge == edges[k]
  {
    if edges != [] {
      assert edges[0] in edges;
      assert forall f :: f in edges[1..] ==> f in edges;
      AllPresentAllDrawn(nodes, edges[1..], path);
    }
  }

  /** In a generated network no edge is skipped. */
  lemma GeneratedEdgesAllDrawn(n: int, density: real, rand: Draws, euclid: Euclid, path: seq<int>)
    requires IsUnitStream(rand) && IsNonNegative(euclid)
    ensures var network := Generated(n, density, rand, euclid);
      |DrawnEdges(network.nodes, network.edges, path)| == |network.edges|
  {
    var network := Generated(n, density, rand, euclid);
    NodeTableFacts(Max0(n), rand);
    EdgePassWellFormed(network.nodes, n, density, rand, euclid, 0, 0, 4 * Max0(n));
    AllPresentAllDrawn(network.nodes, network.edges, path);
  }

  // ---------------------------------------------------------------------------
  // The dashed overlay and the legend

  /** The ids of `s` that are nodes of the network, in order and with their
      repeats: `s` with every other id removed, built from the back. */
  function Kept(nodes: map<int, SupplyChainNode>, s: seq<int>): seq<int>
  {
    if s == [] then []
    else Kept(nodes, s[..|s| - 1]) + (if s[|s| - 1] in nodes then [s[|s| - 1]] else [])
  }

  lemma {:induction false} KeptAppend(nodes: map<int, SupplyChainNode>, a: seq<int>, b: seq<int>)
    ensures Kept(nodes, a + b) == Kept(nodes, a) + Kept(nodes, b)
    decreases |b|
  {
    if b != [] {
      assert (a + b)[..|a + b| - 1] == a + b[..|b| - 1];
      KeptAppend(nodes, a, b[..|b| - 1]);
    } else {
      assert a + b == a;
    }
  }

  /** Keeping the nodes of `[x] + s`: `x` if it is a node, then those of `s`. */
  lemma KeptCons(nodes: map<int, SupplyChainNode>, x: int, s: seq<int>)
    ensures Kept(nodes, [x] + s) == (if x in nodes then [x] else []) + Kept(nodes, s)
  {
    KeptAppend(nodes, [x], s);
    assert [x][..0] == [];
  }

  /** The path ids from position `i` on that are nodes of the network, in order. */
  function PresentFrom(nodes: map<int, SupplyChainNode>, path: seq<int>, i: nat): (ids: seq<int>)
    requires i <= |path|
    ensures forall x :: x in ids <==> exists k :: i <= k < |path| && path[k] == x && x in nodes
    ensures (forall k :: i <= k < |path| ==> path[k] in nodes) ==> ids == path[i..]
    decreases |path| - i
  {
    if i == |path| then []
    else
      assert path[i..] == [path[i]] + path[i + 1..];
      if path[i] in nodes then [path[i]] + PresentFrom(nodes, path, i + 1)
      else PresentFrom(nodes, path, i + 1)
  }

  /** The lines drawn after `moveTo` visit the later path ids that are nodes
      in path order, repeats included. */
  lemma {:induction false} PresentFromKept(nodes: map<int, SupplyChainNode>, path: seq<int>, i: nat)
    requires i <= |path|
    ensures PresentFrom(nodes, path, i) == Kept(nodes, path[i..])
    decreases |path| - i
  {
    if i < |path| {
      PresentFromKept(nodes, path, i + 1);
      assert path[i..] == [path[i]] + path[i + 1..];
      KeptCons(nodes, path[i], path[i + 1..]);
    }
  }

  /** The overlay's first vertex followed by the later ones is `Kept(path)`. */
  lemma OverlayKept(nodes: map<int, SupplyChainNode>, path: seq<int>)
    requires |path| > 1 && path[0] in nodes
    ensures [path[0]] + PresentFrom(nodes, path, 1) == Kept(nodes, path)
    ensures (forall k :: 0 <= k < |path| ==> path[k] in nodes) ==> [path[0]] + PresentFrom(nodes, path, 1) == path
  {
    PresentFromKept(nodes, path, 1);
    assert path == [path[0]] + path[1..];
    KeptCons(nodes, path[0], path[1..]);
  }

  /** The vertices of the dashed overlay: none unless the path has more than
      one id and its first id is a node; then the first node and every later
      id that is a node, in path order. */
  function OverlayVertices(nodes: map<int, SupplyChainNode>, path: seq<int>): (v: Option<seq<int>>)
    ensures v.None? <==> |path| <= 1 || path[0] !in nodes
    ensures v.Some? ==> |v.value| > 0 && v.value[0] == path[0]
    ensures v.Some? ==> forall x :: x in v.value <==> x in path && x in nodes
    ensures v.Some? ==> v.value == Kept(nodes, path)
    ensures |path| > 1 && (forall k :: 0 <= k < |path| ==> path[k] in nodes) ==> v == Some(path)
  {
    if |path| > 1 && path[0] in nodes then
      var later := PresentFrom(nodes, path, 1);
      assert forall x :: x in path <==> x == path[0] || exists k :: 1 <= k < |path| && path[k] == x;
      OverlayKept(nodes, path);
      Some([path[0]] + later)
    else None
  }

  /** The legend lists the optimised path when the path is non-empty. */
  predicate LegendShowsPath(path: seq<int>)
  {
    |path| > 0
  }

  /** Whenever anything on the canvas is drawn for the path (a highlighted
      edge, a ringed node, the overlay), the legend lists it. */
  lemma LegendCoversHighlights(nodes: map<int, SupplyChainNode>, path: seq<int>, from: int, to: int, id: int)
    ensures IsOptimizedEdge(path, from, to) ==> LegendShowsPath(path)
    ensures IsRinged(path, id) ==> LegendShowsPath(path)
    ensures OverlayVertices(nodes, path).Some? ==> LegendShowsPath(path)
  {
  }
}
