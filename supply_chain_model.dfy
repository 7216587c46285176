/**
 * The supply-chain network data model and its random generator
 * (`src/lib/supplyChainModel.ts`).
 *
 * Every call of `Math.random()` reads the next element of an explicit draw
 * stream `rand`, and the Euclidean distance between two positions (scaled to
 * kilometres) is an explicit function `euclid`; with these two oracles fixed,
 * network generation is deterministic. Numbers are exact reals and integers,
 * an idealisation of IEEE doubles.
 */
module SupplyChainModel {
  import opened Wrappers

  /** The four tiers of a supply chain, in flow order. */
  datatype NodeType = Supplier | Manufacturer | Distributor | Retailer

  datatype SupplyChainNode = SupplyChainNode(
    id: int, kind: NodeType, name: string, x: real, y: real, capacity: int, cost: int)

  /** A directed edge; `cost` is the result of `Math.round`, an integer. */
  datatype SupplyChainEdge = SupplyChainEdge(
    from: int, to: int, distance: real, cost: int, time: real, capacity: int)

  /** `nodes` is the `Record<number, SupplyChainNode>` keyed by node id. */
  datatype SupplyChainNetwork = SupplyChainNetwork(
    nodes: map<int, SupplyChainNode>, edges: seq<SupplyChainEdge>)

  datatype ConvergencePoint = ConvergencePoint(iteration: int, bestCost: real)

  /** What the optimisation hands to the presentation layer; `pathCost` is
      `undefined` when there is no history entry to read it from. */
  datatype OptimizationResult = OptimizationResult(
    bestPath: seq<int>, pathCost: Option<real>, convergenceData: seq<ConvergencePoint>)

  datatype AcoParameters = AcoParameters(
    iterations: int, antCount: int, evaporationRate: real, alpha: real, beta: real)

  /** The stream of `Math.random()` results: draw number k is `rand(k)`. */
  type Draws = nat -> real

  /** `Math.random()` always returns a value in [0, 1). */
  ghost predicate IsUnitStream(rand: Draws)
  {
    forall k :: 0.0 <= rand(k) < 1.0
  }

  /** `euclid(x1, y1, x2, y2)` stands for `sqrt((x1 - x2)^2 + (y1 - y2)^2) * 1000`. */
  type Euclid = (real, real, real, real) -> real

  ghost predicate IsNonNegative(euclid: Euclid)
  {
    forall x1, y1, x2, y2 :: euclid(x1, y1, x2, y2) >= 0.0
  }

  const NodeTypes: seq<NodeType> := [Supplier, Manufacturer, Distributor, Retailer]

  /** The string value of a node type, as the source spells it. */
  function TypeName(t: NodeType): string
  {
    match t
    case Supplier => "supplier"
    case Manufacturer => "manufacturer"
    case Distributor => "distributor"
    case Retailer => "retailer"
  }

  /** Position of a tier in the supplier -> retailer flow. */
  function Rank(t: NodeType): (r: nat)
    ensures r < |NodeTypes| && NodeTypes[r] == t
  {
    match t
    case Supplier => 0
    case Manufacturer => 1
    case Distributor => 2
    case Retailer => 3
  }

  // ---------------------------------------------------------------------------
  // Tier assignment: `nodeTypes[Math.floor(i / (nodeCount / 4)) % nodeTypes.length]`

  /** A positive multiple of a positive number is at least that number. */
  lemma MulAtLeast(x: int, n: int)
    requires x >= 1 && n > 0
    ensures x * n >= n
    decreases x
  {
  }

  /** `q * n <= a < (q + 1) * n` pins down `a / n`. */
  lemma DivBetween(a: int, n: int, q: int)
    requires n > 0 && q * n <= a < q * n + n
    ensures a / n == q
  {
    var d, r := a / n, a % n;
    assert a == d * n + r && 0 <= r < n;
    if d < q {
      MulAtLeast(q - d, n);
      assert false;
    } else if d > q {
      MulAtLeast(d - q, n);
      assert false;
    }
  }

  /** Integer division by a positive number is monotone. */
  lemma DivMonotone(a: int, b: int, n: int)
    requires 0 <= a <= b && n > 0
    ensures a / n <= b / n
  {
    var p, q := a / n, b / n;
    assert a == p * n + a % n && 0 <= a % n < n;
    assert b == q * n + b % n && 0 <= b % n < n;
    if p > q {
      MulAtLeast(p - q, n);
      assert false;
    }
  }

  /** The tier index of node `i` among `n` nodes; the final `% 4` of the source
      never changes it, because `4 * i / n` is already below 4. */
  function TierIndex(i: int, n: int): (t: nat)
    requires 0 <= i < n
    ensures t < |NodeTypes|
    ensures t == 4 * i / n
  {
    TierBelowFour(i, n);
    var quarter := 4 * i / n;
    assert |NodeTypes| == 4;
    quarter % |NodeTypes|
  }

  lemma TierBelowFour(i: int, n: int)
    requires 0 <= i < n
    ensures 0 <= 4 * i / n < 4
  {
    DivMonotone(4 * i, 4 * n - 1, n);
    DivBetween(4 * n - 1, n, 3);
  }

  function TierOf(i: int, n: int): NodeType
    requires 0 <= i < n
  {
    NodeTypes[TierIndex(i, n)]
  }

  /** Tiers never go back as the index grows, and node 0 is a supplier. */
  lemma TierMonotone(i: int, j: int, n: int)
    requires 0 <= i <= j < n
    ensures Rank(TierOf(i, n)) <= Rank(TierOf(j, n))
    ensures TierOf(0, n) == Supplier
  {
  }

  /** With at least four nodes every tier is used: the first node of tier `k`
      is `ceil(k * n / 4)`. */
  lemma EveryTierPresent(k: nat, n: int)
    requires k < 4 <= n
    ensures var i := (k * n + 3) / 4; 0 <= i < n && TierIndex(i, n) == k
  {
  }

  // ---------------------------------------------------------------------------
  // Type compatibility and colours

  /** 0.7 along the flow supplier -> manufacturer -> distributor -> retailer,
      0.1 for every other ordered pair. */
  function Compatibility(fromType: NodeType, toType: NodeType): (c: real)
    ensures c == if Rank(toType) == Rank(fromType) + 1 then 0.7 else 0.1
  {
    if || (fromType == Supplier && toType == Manufacturer)
       || (fromType == Manufacturer && toType == Distributor)
       || (fromType == Distributor && toType == Retailer)
    then 0.7
    else 0.1
  }

  /** The high weight is never symmetric: the reverse of a flow step is low. */
  lemma CompatibilityDirected(a: NodeType, b: NodeType)
    ensures Compatibility(a, b) == 0.7 ==> Compatibility(b, a) == 0.1
    ensures Compatibility(a, a) == 0.1
  {
  }

  const Gray := "#6b7280"

  /** `getNodeColor`: a fixed colour per tier name, gray for any other string. */
  function NodeColor(kind: string): (color: string)
    ensures color == Gray <==> forall t :: kind != TypeName(t)
    ensures color in {"#3b82f6", "#10b981", "#8b5cf6", "#f59e0b", Gray}
  {
    if kind == "supplier" then assert kind == TypeName(Supplier); "#3b82f6"
    else if kind == "manufacturer" then assert kind == TypeName(Manufacturer); "#10b981"
    else if kind == "distributor" then assert kind == TypeName(Distributor); "#8b5cf6"
    else if kind == "retailer" then assert kind == TypeName(Retailer); "#f59e0b"
    else Gray
  }

  /** Different tiers are drawn in different colours. */
  lemma TierColorsDistinct(s: NodeType, t: NodeType)
    requires s != t
    ensures NodeColor(TypeName(s)) != NodeColor(TypeName(t))
  {
  }

  // ---------------------------------------------------------------------------
  // Node names: `${type.charAt(0).toUpperCase() + type.slice(1)} ${i}`

  function UpperAscii(c: char): (u: char)
    ensures 'a' <= c <= 'z' ==> 'A' <= u <= 'Z' && u as int == c as int - 32
    ensures !('a' <= c <= 'z') ==> u == c
  {
    if 'a' <= c <= 'z' then (c as int - 'a' as int + 'A' as int) as char else c
  }

  function Capitalize(s: string): (r: string)
    ensures |r| == |s| && (|s| > 0 ==> r[1..] == s[1..] && r[0] == UpperAscii(s[0]))
  {
    if s == [] then [] else [UpperAscii(s[0])] + s[1..]
  }

  /** The decimal digits of a natural number, as a template literal prints it. */
  function DecimalString(v: nat): (r: string)
    ensures |r| > 0
    ensures forall k :: 0 <= k < |r| ==> '0' <= r[k] <= '9'
    ensures |r| > 1 ==> r[0] != '0'
  {
    if v < 10 then ["0123456789"[v]]
    else DecimalString(v / 10) + ["0123456789"[v % 10]]
  }

  /** The number a string of decimal digits denotes, most significant first. */
  function DigitsValue(s: string): nat
    requires forall k :: 0 <= k < |s| ==> '0' <= s[k] <= '9'
  {
    if s == [] then 0
    else 10 * DigitsValue(s[..|s| - 1]) + (s[|s| - 1] as int - '0' as int)
  }

  /** The printed digits denote the index itself. */
  lemma {:induction false} DecimalStringValue(v: nat)
    ensures DigitsValue(DecimalString(v)) == v
    decreases v
  {
    if v >= 10 {
      DecimalStringValue(v / 10);
      var r := DecimalString(v);
      assert r[..|r| - 1] == DecimalString(v / 10);
    }
  }

  function NodeName(t: NodeType, i: nat): (name: string)
    ensures |name| > |TypeName(t)| + 1 && name[|TypeName(t)|] == ' '
    ensures name[0] == UpperAscii(TypeName(t)[0])
    ensures name[1..|TypeName(t)|] == TypeName(t)[1..]
    ensures name[|TypeName(t)| + 1..] == DecimalString(i)
  {
    Capitalize(TypeName(t)) + " " + DecimalString(i)
  }

  // ---------------------------------------------------------------------------
  // Specification of generateRandomNetwork

  /** Node `i` of `n`: its tier from its index, then four draws in the order
      the object literal makes them: x, y, capacity, cost. */
  function MakeNode(i: nat, n: int, rand: Draws): SupplyChainNode
    requires i < n
  {
    var kind := TierOf(i, n);
    SupplyChainNode(
      i, kind, NodeName(kind, i), rand(4 * i), rand(4 * i + 1),
      50 + (rand(4 * i + 2) * 150.0).Floor, 10 + (rand(4 * i + 3) * 40.0).Floor)
  }

  /** The node record after the first loop has created nodes `0 .. m - 1`. */
  function NodeTable(m: int, n: int, rand: Draws): map<int, SupplyChainNode>
    requires m <= n
  {
    map i | 0 <= i < m :: MakeNode(i, n, rand)
  }

  lemma NodeTableGrows(i: int, n: int, rand: Draws)
    requires 0 <= i < n
    ensures NodeTable(i, n, rand)[i := MakeNode(i, n, rand)] == NodeTable(i + 1, n, rand)
  {
  }

  /** The node record is dense, every node knows its own id and tier, and the
      drawn capacity and cost stay within the source's integer bounds. */
  lemma NodeTableFacts(n: int, rand: Draws)
    requires IsUnitStream(rand)
    ensures forall i :: i in NodeTable(n, n, rand) <==> 0 <= i < n
    ensures forall i | 0 <= i < n :: var node := NodeTable(n, n, rand)[i];
      && node.id == i && node.kind == TierOf(i, n)
      && 50 <= node.capacity <= 199 && 10 <= node.cost <= 49
  {
  }

  /** JavaScript's `Math.round`: halves round up. */
  function Round(x: real): (r: int)
    ensures x - 0.5 < r as real <= x + 0.5
  {
    (x + 0.5).Floor
  }

  /** The edge `i -> j`, with the three draws after the creation draw `k - 1`
      read in the literal's order: cost, time, capacity. */
  function MakeEdge(i: int, j: int, a: SupplyChainNode, b: SupplyChainNode,
                    euclid: Euclid, rand: Draws, k: nat): SupplyChainEdge
  {
    var d := euclid(a.x, a.y, b.x, b.y);
    SupplyChainEdge(i, j, RoundedDistance(d), EdgeCost(d, rand(k)),
                    TransitTime(d, rand(k + 1)), EdgeCapacity(rand(k + 2)))
  }

  /** `Math.round(distance * 10) / 10`: one decimal place. */
  function RoundedDistance(d: real): (r: real)
    ensures d >= 0.0 ==> r >= 0.0
  {
    (Round(d * 10.0) as real) / 10.0
  }

  /** `Math.round(distance * (5 + Math.random() * 5))`. */
  function EdgeCost(d: real, draw: real): (c: int)
    ensures d >= 0.0 && draw >= 0.0 ==> c >= 0
  {
    assert d >= 0.0 && draw >= 0.0 ==> d * (5.0 + draw * 5.0) >= 0.0;
    Round(d * (5.0 + draw * 5.0))
  }

  /** `Math.round(distance * (0.05 + Math.random() * 0.1) * 10) / 10`. */
  function TransitTime(d: real, draw: real): (t: real)
    ensures d >= 0.0 && draw >= 0.0 ==> t >= 0.0
  {
    assert d >= 0.0 && draw >= 0.0 ==> d * (0.05 + draw * 0.1) * 10.0 >= 0.0;
    (Round(d * (0.05 + draw * 0.1) * 10.0) as real) / 10.0
  }

  /** `20 + Math.floor(Math.random() * 80)`. */
  function EdgeCapacity(draw: real): (c: int)
    ensures 0.0 <= draw < 1.0 ==> 20 <= c <= 99
  {
    20 + (draw * 80.0).Floor
  }

  /** The draw `rand(k)` creates the edge `i -> j`: it falls below the
      density weighted by the tiers' compatibility. The weight is one of the
      two constants, so the product is written per case. */
  predicate Creates(nodes: map<int, SupplyChainNode>, density: real, rand: Draws, i: int, j: int, k: nat)
    requires i in nodes && j in nodes
  {
    rand(k) < if Compatibility(nodes[i].kind, nodes[j].kind) == 0.7 then density * 0.7 else density * 0.1
  }

  /** The edges the nested loops emit from position `(i, j)` on, with the
      draw stream at position `k`: one draw decides each ordered pair `i != j`
      against `density * compatibility`, three more are spent on a created edge. */
  function EdgePass(nodes: map<int, SupplyChainNode>, n: int, density: real,
                    rand: Draws, euclid: Euclid, i: int, j: int, k: nat): seq<SupplyChainEdge>
    requires 0 <= i && 0 <= j
    requires forall v :: 0 <= v < n ==> v in nodes
    decreases n - i, n - j
  {
    if i >= n then []
    else if j >= n then EdgePass(nodes, n, density, rand, euclid, i + 1, 0, k)
    else if i == j then EdgePass(nodes, n, density, rand, euclid, i, j + 1, k)
    else if Creates(nodes, density, rand, i, j, k) then
      [MakeEdge(i, j, nodes[i], nodes[j], euclid, rand, k + 1)]
        + EdgePass(nodes, n, density, rand, euclid, i, j + 1, k + 4)
    else EdgePass(nodes, n, density, rand, euclid, i, j + 1, k + 1)
  }

  /** One step of the pass at a pair of distinct nodes: the pair's edge, if
      the draw creates one, comes before the rest of the pass. */
  lemma EdgePassStep(nodes: map<int, SupplyChainNode>, n: int, density: real,
                     rand: Draws, euclid: Euclid, i: int, j: int, k: nat)
    requires 0 <= i < n && 0 <= j < n && i != j
    requires forall v :: 0 <= v < n ==> v in nodes
    ensures Creates(nodes, density, rand, i, j, k) ==>
      EdgePass(nodes, n, density, rand, euclid, i, j, k)
        == [MakeEdge(i, j, nodes[i], nodes[j], euclid, rand, k + 1)]
           + EdgePass(nodes, n, density, rand, euclid, i, j + 1, k + 4)
    ensures !Creates(nodes, density, rand, i, j, k) ==>
      EdgePass(nodes, n, density, rand, euclid, i, j, k)
        == EdgePass(nodes, n, density, rand, euclid, i, j + 1, k + 1)
  {
  }

  /** The network `generateRandomNetwork(n, density)` builds; the edge loop
      starts reading draws after the `4 * n` draws of the node loop. */
  function Generated(n: int, density: real, rand: Draws, euclid: Euclid): SupplyChainNetwork
  {
    var nodes := NodeTable(Max0(n), Max0(n), rand);
    SupplyChainNetwork(nodes, EdgePass(nodes, n, density, rand, euclid, 0, 0, 4 * Max0(n)))
  }

  // ---------------------------------------------------------------------------
  // Structural facts about the generated edges

  /** An edge between two existing nodes, not a self-loop, with its drawn
      capacity in [20, 99] and non-negative cost, distance and time. */
  ghost predicate WellFormedEdge(e: SupplyChainEdge, n: int)
  {
    && 0 <= e.from < n && 0 <= e.to < n && e.from != e.to
    && 20 <= e.capacity <= 99
    && e.cost >= 0 && e.distance >= 0.0 && e.time >= 0.0
  }

  /** Row-major order of ordered pairs: `(from, to)` compared lexicographically. */
  predicate Before(e: SupplyChainEdge, f: SupplyChainEdge)
  {
    e.from < f.from || (e.from == f.from && e.to < f.to)
  }

  ghost predicate RowMajor(edges: seq<SupplyChainEdge>)
  {
    forall a, b :: 0 <= a < b < |edges| ==> Before(edges[a], edges[b])
  }

  lemma MakeEdgeWellFormed(i: int, j: int, a: SupplyChainNode, b: SupplyChainNode,
                           euclid: Euclid, rand: Draws, k: nat, n: int)
    requires IsUnitStream(rand) && IsNonNegative(euclid)
    requires 0 <= i < n && 0 <= j < n && i != j
    ensures WellFormedEdge(MakeEdge(i, j, a, b, euclid, rand, k), n)
  {
  }

  /** Every edge emitted from `(i, j)` on is well formed. */
  lemma {:induction false} EdgePassWellFormed(nodes: map<int, SupplyChainNode>, n: int, density: real,
                                              rand: Draws, euclid: Euclid, i: int, j: int, k: nat)
    requires IsUnitStream(rand) && IsNonNegative(euclid)
    requires 0 <= i && 0 <= j
    requires forall v :: 0 <= v < n ==> v in nodes
    ensures forall e :: e in EdgePass(nodes, n, density, rand, euclid, i, j, k) ==> WellFormedEdge(e, n)
    decreases n - i, n - j
  {
    if i >= n {
    } else if j >= n {
      EdgePassWellFormed(nodes, n, density, rand, euclid, i + 1, 0, k);
    } else if i == j {
      EdgePassWellFormed(nodes, n, density, rand, euclid, i, j + 1, k);
    } else if Creates(nodes, density, rand, i, j, k) {
      EdgePassWellFormed(nodes, n, density, rand, euclid, i, j + 1, k + 4);
      MakeEdgeWellFormed(i, j, nodes[i], nodes[j], euclid, rand, k + 1, n);
    } else {
      EdgePassWellFormed(nodes, n, density, rand, euclid, i, j + 1, k + 1);
    }
  }

  /** Every edge of `edges` lies at or after the pair `(i, j)` in row-major order. */
  ghost predicate AtOrAfter(edges: seq<SupplyChainEdge>, i: int, j: int)
  {
    forall e :: e in edges ==> e.from > i || (e.from == i && e.to >= j)
  }

  /** Edges at or after `(i, j + 1)` or after row `i` lie at or after `(i, j)`. */
  lemma AtOrAfterWeaken(edges: seq<SupplyChainEdge>, i: int, j: int)
    requires AtOrAfter(edges, i, j + 1) || AtOrAfter(edges, i + 1, 0)
    ensures AtOrAfter(edges, i, j)
  {
  }

  /** Prepending the edge `(i, j)` to a row-major list that starts after it
      keeps the list row-major. */
  lemma ConsRowMajor(e: SupplyChainEdge, rest: seq<SupplyChainEdge>, i: int, j: int)
    requires e.from == i && e.to == j && RowMajor(rest) && AtOrAfter(rest, i, j + 1)
    ensures RowMajor([e] + rest) && AtOrAfter([e] + rest, i, j)
  {
  }

  /** The edges emitted from `(i, j)` on lie at or after `(i, j)` and come in
      strictly increasing row-major order, so no ordered pair occurs twice. */
  lemma {:induction false} EdgePassRowMajor(nodes: map<int, SupplyChainNode>, n: int, density: real,
                                            rand: Draws, euclid: Euclid, i: int, j: int, k: nat)
    requires 0 <= i && 0 <= j
    requires forall v :: 0 <= v < n ==> v in nodes
    ensures AtOrAfter(EdgePass(nodes, n, density, rand, euclid, i, j, k), i, j)
    ensures RowMajor(EdgePass(nodes, n, density, rand, euclid, i, j, k))
    decreases n - i, n - j
  {
    var edges := EdgePass(nodes, n, density, rand, euclid, i, j, k);
    if i >= n {
    } else if j >= n {
      EdgePassRowMajor(nodes, n, density, rand, euclid, i + 1, 0, k);
      AtOrAfterWeaken(edges, i, j);
    } else if i == j {
      EdgePassRowMajor(nodes, n, density, rand, euclid, i, j + 1, k);
      AtOrAfterWeaken(edges, i, j);
    } else {
      EdgePassStep(nodes, n, density, rand, euclid, i, j, k);
      if Creates(nodes, density, rand, i, j, k) {
        EdgePassRowMajor(nodes, n, density, rand, euclid, i, j + 1, k + 4);
        ConsRowMajor(MakeEdge(i, j, nodes[i], nodes[j], euclid, rand, k + 1),
                     EdgePass(nodes, n, density, rand, euclid, i, j + 1, k + 4), i, j);
      } else {
        EdgePassRowMajor(nodes, n, density, rand, euclid, i, j + 1, k + 1);
        AtOrAfterWeaken(edges, i, j);
      }
    }
  }

  /** A density of zero or less creates no edge at all. */
  lemma {:induction false} NoDensityNoEdges(nodes: map<int, SupplyChainNode>, n: int, density: real,
                                            rand: Draws, euclid: Euclid, i: int, j: int, k: nat)
    requires IsUnitStream(rand) && density <= 0.0
    requires 0 <= i && 0 <= j
    requires forall v :: 0 <= v < n ==> v in nodes
    ensures EdgePass(nodes, n, density, rand, euclid, i, j, k) == []
    decreases n - i, n - j
  {
    if i >= n {
    } else if j >= n {
      NoDensityNoEdges(nodes, n, density, rand, euclid, i + 1, 0, k);
    } else if i == j {
      NoDensityNoEdges(nodes, n, density, rand, euclid, i, j + 1, k);
    } else {
      assert 0.0 <= rand(k);
      NoDensityNoEdges(nodes, n, density, rand, euclid, i, j + 1, k + 1);
    }
  }

  /** At a density of 10 or more every draw creates its edge. */
  lemma SaturatedCreates(nodes: map<int, SupplyChainNode>, density: real, rand: Draws, i: int, j: int, k: nat)
    requires IsUnitStream(rand) && density >= 10.0
    requires i in nodes && j in nodes
    ensures Creates(nodes, density, rand, i, j, k)
  {
    assert rand(k) < 1.0;
    if Compatibility(nodes[i].kind, nodes[j].kind) == 0.7 {
      assert density * 0.7 >= 7.0;
    } else {
      assert density * 0.1 >= 1.0;
    }
  }

  /** Some edge of `edges` goes from `p` to `q`. */
  ghost predicate HasEdge(edges: seq<SupplyChainEdge>, p: int, q: int)
  {
    exists e :: e in edges && e.from == p && e.to == q
  }

  lemma HasEdgeCons(e: SupplyChainEdge, rest: seq<SupplyChainEdge>, p: int, q: int)
    requires HasEdge(rest, p, q) || (e.from == p && e.to == q)
    ensures HasEdge([e] + rest, p, q)
  {
    if e.from == p && e.to == q {
      assert e in [e] + rest;
    } else {
      var f :| f in rest && f.from == p && f.to == q;
      assert f in [e] + rest;
    }
  }

  /** A density of 10 or more (so that `density * 0.1 >= 1`) connects every
      ordered pair of distinct nodes at or after `(i, j)`. */
  lemma {:induction false} SaturatedDensityConnectsAll(
    nodes: map<int, SupplyChainNode>, n: int, density: real,
    rand: Draws, euclid: Euclid, i: int, j: int, k: nat, p: int, q: int)
    requires IsUnitStream(rand) && density >= 10.0
    requires 0 <= i && 0 <= j
    requires forall v :: 0 <= v < n ==> v in nodes
    requires 0 <= p < n && 0 <= q < n && p != q
    requires p > i || (p == i && q >= j)
    ensures HasEdge(EdgePass(nodes, n, density, rand, euclid, i, j, k), p, q)
    decreases n - i, n - j
  {
    if i >= n {
      assert false;
    } else if j >= n {
      assert EdgePass(nodes, n, density, rand, euclid, i, j, k)
          == EdgePass(nodes, n, density, rand, euclid, i + 1, 0, k);
      SaturatedDensityConnectsAll(nodes, n, density, rand, euclid, i + 1, 0, k, p, q);
    } else if i == j {
      assert EdgePass(nodes, n, density, rand, euclid, i, j, k)
          == EdgePass(nodes, n, density, rand, euclid, i, j + 1, k);
      SaturatedDensityConnectsAll(nodes, n, density, rand, euclid, i, j + 1, k, p, q);
    } else {
      SaturatedCreates(nodes, density, rand, i, j, k);
      var rest := EdgePass(nodes, n, density, rand, euclid, i, j + 1, k + 4);
      var e := MakeEdge(i, j, nodes[i], nodes[j], euclid, rand, k + 1);
      assert EdgePass(nodes, n, density, rand, euclid, i, j, k) == [e] + rest;
      if !(p == i && q == j) {
        SaturatedDensityConnectsAll(nodes, n, density, rand, euclid, i, j + 1, k + 4, p, q);
      }
      HasEdgeCons(e, rest, p, q);
    }
  }

  // ---------------------------------------------------------------------------
  // generateRandomNetwork itself

  /** The first loop of `generateRandomNetwork`: create nodes `0 .. n - 1`,
      four draws each. */
  method CreateNodes(nodeCount: int, rand: Draws) returns (nodes: map<int, SupplyChainNode>)
    ensures nodes == NodeTable(Max0(nodeCount), Max0(nodeCount), rand)
  {
    var n := Max0(nodeCount);
    nodes := map[];
    var i := 0;
    while i < nodeCount
      invariant 0 <= i <= n
      invariant nodes == NodeTable(i, n, rand)
    {
      var kind := NodeTypes[TierIndex(i, nodeCount)];
      var node := SupplyChainNode(
        i, kind, NodeName(kind, i), rand(4 * i), rand(4 * i + 1),
        50 + (rand(4 * i + 2) * 150.0).Floor, 10 + (rand(4 * i + 3) * 40.0).Floor);
      assert node == MakeNode(i, n, rand);
      NodeTableGrows(i, n, rand);
      nodes := nodes[i := node];
      i := i + 1;
    }
  }

  /** The body of the inner edge loop for the pair `(i, j)`: a self-pair is
      skipped without a draw; otherwise draw `k` decides, and a created edge
      takes the next three draws. `created` is the pushed edge, if any, and
      `next` the draw position afterwards. */
  method ConsiderPair(nodes: map<int, SupplyChainNode>, nodeCount: int, density: real,
                      rand: Draws, euclid: Euclid, i: nat, j: nat, k: nat)
    returns (created: seq<SupplyChainEdge>, next: nat)
    requires i < nodeCount && j < nodeCount
    requires forall v :: 0 <= v < nodeCount ==> v in nodes
    ensures EdgePass(nodes, nodeCount, density, rand, euclid, i, j, k)
         == created + EdgePass(nodes, nodeCount, density, rand, euclid, i, j + 1, next)
    ensures next == if i == j then k else if Creates(nodes, density, rand, i, j, k) then k + 4 else k + 1
    ensures |created| <= 1
    ensures |created| == 1 <==> i != j && Creates(nodes, density, rand, i, j, k)
  {
    created, next := [], k;
    if i != j {
      EdgePassStep(nodes, nodeCount, density, rand, euclid, i, j, k);
      if Creates(nodes, density, rand, i, j, k) {
        created, next := [MakeEdge(i, j, nodes[i], nodes[j], euclid, rand, k + 1)], k + 4;
      } else {
        next := k + 1;
      }
    }
  }

  lemma Regroup<T>(a: seq<T>, b: seq<T>, c: seq<T>)
    ensures a + (b + c) == (a + b) + c
  {
  }

  /** One pass of the inner edge loop, for source node `i`: the edges it
      pushes, followed by the rest of the pass from node `i + 1` on, are the
      rest of the pass from `(i, 0)`; `kOut` is the draw position afterwards. */
  method CreateRow(nodes: map<int, SupplyChainNode>, nodeCount: int, density: real,
                   rand: Draws, euclid: Euclid, i: nat, k0: nat)
    returns (row: seq<SupplyChainEdge>, kOut: nat)
    requires i < nodeCount
    requires forall v :: 0 <= v < nodeCount ==> v in nodes
    ensures EdgePass(nodes, nodeCount, density, rand, euclid, i, 0, k0)
         == row + EdgePass(nodes, nodeCount, density, rand, euclid, i + 1, 0, kOut)
  {
    ghost var all := EdgePass(nodes, nodeCount, density, rand, euclid, i, 0, k0);
    row := [];
    var k := k0;
    var j := 0;
    while j < nodeCount
      invariant 0 <= j <= nodeCount
      invariant row + EdgePass(nodes, nodeCount, density, rand, euclid, i, j, k) == all
    {
      var created, next := ConsiderPair(nodes, nodeCount, density, rand, euclid, i, j, k);
      Regroup(row, created, EdgePass(nodes, nodeCount, density, rand, euclid, i, j + 1, next));
      row, k := row + created, next;
      j := j + 1;
    }
    kOut := k;
  }

  /** The second loop of `generateRandomNetwork`: visit every ordered pair in
      row-major order, reading draws from position `k0` on, and push the
      edges the draws create. */
  method CreateEdges(nodes: map<int, SupplyChainNode>, nodeCount: int, density: real,
                     rand: Draws, euclid: Euclid, k0: nat)
    returns (edges: seq<SupplyChainEdge>)
    requires forall v :: 0 <= v < nodeCount ==> v in nodes
    ensures edges == EdgePass(nodes, nodeCount, density, rand, euclid, 0, 0, k0)
  {
    ghost var all := EdgePass(nodes, nodeCount, density, rand, euclid, 0, 0, k0);
    edges := [];
    var k := k0;
    var i := 0;
    while i < nodeCount
      invariant 0 <= i && (nodeCount >= 0 ==> i <= nodeCount)
      invariant edges + EdgePass(nodes, nodeCount, density, rand, euclid, i, 0, k) == all
    {
      var row, next := CreateRow(nodes, nodeCount, density, rand, euclid, i, k);
      edges := edges + row;
      k := next;
      i := i + 1;
    }
  }

  /** `generateRandomNetwork(nodeCount, density)`: the node record, then the
      edge list, whose draws start after the `4 * nodeCount` draws of the nodes. */
  method GenerateRandomNetwork(nodeCount: int, density: real, rand: Draws, euclid: Euclid)
    returns (network: SupplyChainNetwork)
    requires IsUnitStream(rand) && IsNonNegative(euclid)
    ensures network == Generated(nodeCount, density, rand, euclid)
    ensures forall i :: i in network.nodes <==> 0 <= i < nodeCount
    ensures forall i | 0 <= i < nodeCount :: var node := network.nodes[i];
      && node.id == i && node.kind == TierOf(i, nodeCount)
      && 50 <= node.capacity <= 199 && 10 <= node.cost <= 49
    ensures forall e :: e in network.edges ==> WellFormedEdge(e, nodeCount)
    ensures RowMajor(network.edges)
  {
    var nodes := CreateNodes(nodeCount, rand);
    var edges := CreateEdges(nodes, nodeCount, density, rand, euclid, 4 * Max0(nodeCount));
    network := SupplyChainNetwork(nodes, edges);
    NodeTableFacts(Max0(nodeCount), rand);
    EdgePassWellFormed(nodes, nodeCount, density, rand, euclid, 0, 0, 4 * Max0(nodeCount));
    EdgePassRowMajor(nodes, nodeCount, density, rand, euclid, 0, 0, 4 * Max0(nodeCount));
  }
}
