/**
 * The page state of `src/pages/Index.tsx`: the current network, the current
 * optimisation result, the placeholder `runOptimization` that fabricates a
 * result, and the handler that regenerates the network.
 *
 * `runOptimization` runs no optimiser. It draws one `Math.random()` per
 * iteration to jitter a decaying curve `100 * Math.exp(-0.05 * i)`, and it
 * shuffles the node ids with a random comparator. The curve is a parameter
 * `curve`, the jitter draws the stream `rand`, and the shuffle's choices the
 * oracle `picks`.
 */
module IndexPage {
  import opened Wrappers
  import opened SupplyChainModel

  // ---------------------------------------------------------------------------
  // The node ids, in key order

  lemma Inhabited(keys: set<int>)
    requires keys != {}
    ensures exists x :: x in keys
  {
    assert (forall x :: x !in keys) ==> keys == {};
  }

  lemma {:induction false} LeastExists(keys: set<int>)
    requires keys != {}
    ensures exists m :: m in keys && forall k :: k in keys ==> m <= k
    decreases |keys|
  {
    Inhabited(keys);
    var x :| x in keys;
    var rest := keys - {x};
    if rest == {} {
      forall k | k in keys ensures x <= k {
        assert k == x || k in rest;
      }
    } else {
      LeastExists(rest);
      var m :| m in rest && forall k :: k in rest ==> m <= k;
      var least := if x < m then x else m;
      forall k | k in keys ensures least <= k {
        if k != x { assert k in rest; }
      }
    }
  }

  /** The least of a non-empty set of ids. */
  function Least(keys: set<int>): (m: int)
    requires keys != {}
    ensures m in keys && forall k :: k in keys ==> m <= k
  {
    LeastExists(keys);
    var m :| m in keys && forall k :: k in keys ==> m <= k;
    m
  }

  /** `Object.keys(network.nodes).map(id => parseInt(id))`: the keys in
      ascending order, each once. */
  function NodeIds(keys: set<int>): (ids: seq<int>)
    ensures |ids| == |keys|
    ensures forall x :: x in ids <==> x in keys
    ensures forall a, b :: 0 <= a < b < |ids| ==> ids[a] < ids[b]
    decreases |keys|
  {
    if keys == {} then []
    else
      var m := Least(keys);
      var rest := NodeIds(keys - {m});
      assert forall x :: x in keys <==> x == m || x in keys - {m};
      [m] + rest
  }

  /** An ascending sequence holds each of its values once. */
  lemma {:induction false} AscendingOnce(ids: seq<int>)
    requires forall a, b :: 0 <= a < b < |ids| ==> ids[a] < ids[b]
    ensures forall x :: x in ids ==> multiset(ids)[x] == 1
  {
    if ids != [] {
      var rest := ids[1..];
      assert ids == [ids[0]] + rest;
      AscendingOnce(rest);
      assert ids[0] !in rest;
    }
  }

  // ---------------------------------------------------------------------------
  // The shuffle

  /** Which of the `count` remaining elements the sort places next, at choice `k`. */
  type Picks = nat -> nat

  /** `[...nodes].sort(() => Math.random() - 0.5)`. With an inconsistent
      comparator the order is left to the engine; what is certain is that the
      result is a rearrangement of the input. The oracle chooses, one position
      at a time, which remaining element comes next. */
  function Shuffle(xs: seq<int>, picks: Picks, k: nat): (ys: seq<int>)
    ensures multiset(ys) == multiset(xs)
    decreases |xs|
  {
    if xs == [] then []
    else
      var p := picks(k) % |xs|;
      var rest := xs[..p] + xs[p + 1..];
      assert xs == xs[..p] + [xs[p]] + xs[p + 1..];
      [xs[p]] + Shuffle(rest, picks, k + 1)
  }

  // ---------------------------------------------------------------------------
  // The fabricated result

  /** The cost reported for iteration `i` (1-based), jittered by `draw`:
      `curve(i) * (1 + 0.2 * draw)`. */
  function Jittered(curveValue: real, draw: real): real
  {
    curveValue * (1.0 + 0.2 * draw)
  }

  /** The `bestCosts` array: one jittered cost per iteration. */
  function BestCosts(count: nat, curve: int -> real, rand: Draws): (costs: seq<real>)
  {
    seq(count, k requires 0 <= k < count => Jittered(curve(k + 1), rand(k)))
  }

  /** The result `runOptimization` stores, for the node ids `keys`; like
      `Array.from({ length })`, a negative iteration count gives no entry. */
  function PlaceholderResult(keys: set<int>, iterations: int, curve: int -> real,
                             rand: Draws, picks: Picks): OptimizationResult
  {
    var count := Max0(iterations);
    var costs := BestCosts(count, curve, rand);
    var iterationNumbers := Range(1, count + 1);
    OptimizationResult(
      Shuffle(NodeIds(keys), picks, 0),
      if count == 0 then None else Some(costs[count - 1]),
      seq(count, k requires 0 <= k < count => ConvergencePoint(iterationNumbers[k], costs[k])))
  }

  /** The convergence data has one entry per iteration, numbered 1..N and
      carrying that iteration's jittered cost; `pathCost` is the last entry's
      cost, absent (`undefined`) when there is no iteration. */
  lemma PlaceholderHistory(keys: set<int>, iterations: int, curve: int -> real, rand: Draws, picks: Picks)
    ensures var r := PlaceholderResult(keys, iterations, curve, rand, picks);
      && |r.convergenceData| == Max0(iterations)
      && (forall k :: 0 <= k < |r.convergenceData| ==>
            r.convergenceData[k].iteration == k + 1
            && r.convergenceData[k].bestCost == Jittered(curve(k + 1), rand(k)))
      && (r.pathCost.None? <==> |r.convergenceData| == 0)
      && (r.pathCost.Some? ==> r.pathCost.value == r.convergenceData[|r.convergenceData| - 1].bestCost)
  {
    var count := Max0(iterations);
    var costs := BestCosts(count, curve, rand);
    var numbers := Range(1, count + 1);
    var data := PlaceholderResult(keys, iterations, curve, rand, picks).convergenceData;
    assert data == seq(count, k requires 0 <= k < count => ConvergencePoint(numbers[k], costs[k]));
    forall k | 0 <= k < count
      ensures data[k].iteration == k + 1 && data[k].bestCost == Jittered(curve(k + 1), rand(k))
    {
      assert data[k] == ConvergencePoint(numbers[k], costs[k]);
    }
  }

  /** The fabricated best path visits every node id exactly once and nothing else. */
  lemma PlaceholderPathIsPermutation(keys: set<int>, iterations: int, curve: int -> real,
                                     rand: Draws, picks: Picks)
    ensures var path := PlaceholderResult(keys, iterations, curve, rand, picks).bestPath;
      && |path| == |keys|
      && (forall x :: x in path <==> x in keys)
      && (forall x :: x in keys ==> multiset(path)[x] == 1)
  {
    var ids := NodeIds(keys);
    AscendingOnce(ids);
    var path := Shuffle(ids, picks, 0);
    assert |path| == |multiset(path)| == |multiset(ids)| == |ids|;
    forall x
      ensures x in path <==> x in keys
    {
      assert x in path <==> x in multiset(path);
      assert x in ids <==> x in multiset(ids);
    }
  }

  /** With a decaying curve each jittered cost lies between the curve and
      1.2 times the curve. */
  lemma JitterBounds(curveValue: real, draw: real)
    requires curveValue > 0.0 && 0.0 <= draw < 1.0
    ensures curveValue <= Jittered(curveValue, draw) < 1.2 * curveValue
  {
  }

  /** With the curve's ratio between consecutive iterations at 0.95 or more,
      a first draw of 0 and a second of 0.5 or more make the second cost the higher. */
  lemma JitterCanRise(c1: real, c2: real, d1: real, d2: real)
    requires c1 > 0.0 && c2 >= 0.95 * c1 && d1 == 0.0 && d2 >= 0.5
    ensures Jittered(c2, d2) > Jittered(c1, d1)
  {
  }

  /** The reported costs need not fall: the curve's own ratio between
      consecutive iterations is `exp(-0.05)`, above 0.95, and a jitter draw of
      0 followed by one of 0.5 or more already makes the second cost higher. */
  lemma JitteredCostsCanRise(keys: set<int>, iterations: int, curve: int -> real, rand: Draws, picks: Picks)
    requires iterations >= 2
    requires curve(1) > 0.0 && curve(2) >= 0.95 * curve(1)
    requires rand(0) == 0.0 && rand(1) >= 0.5
    ensures var data := PlaceholderResult(keys, iterations, curve, rand, picks).convergenceData;
      data[1].bestCost > data[0].bestCost
  {
    PlaceholderHistory(keys, iterations, curve, rand, picks);
    JitterCanRise(curve(1), curve(2), rand(0), rand(1));
  }

  // ---------------------------------------------------------------------------
  // The page's state

  class Index {
    var network: SupplyChainNetwork
    var optimizationResults: Option<OptimizationResult>

    /** The initial state: `generateRandomNetwork(10, 0.4)` and no result. */
    constructor (rand: Draws, euclid: Euclid)
      requires IsUnitStream(rand) && IsNonNegative(euclid)
      ensures network == Generated(10, 0.4, rand, euclid)
      ensures optimizationResults == None
    {
      var initial := GenerateRandomNetwork(10, 0.4, rand, euclid);
      network := initial;
      optimizationResults := None;
    }

    /** `runOptimization(params)`: only `params.iterations` is used; the
        network is left as it is. */
    method RunOptimization(params: AcoParameters, curve: int -> real, rand: Draws, picks: Picks)
      modifies this
      ensures network == old(network)
      ensures optimizationResults ==
        Some(PlaceholderResult(network.nodes.Keys, params.iterations, curve, rand, picks))
    {
      var result := PlaceholderResult(network.nodes.Keys, params.iterations, curve, rand, picks);
      optimizationResults := Some(result);
    }

    /** The regenerate handler: a new network, and the old result cleared. */
    method GenerateNewNetwork(nodeCount: int, density: real, rand: Draws, euclid: Euclid)
      requires IsUnitStream(rand) && IsNonNegative(euclid)
      modifies this
      ensures network == Generated(nodeCount, density, rand, euclid)
      ensures optimizationResults == None
    {
      var generated := GenerateRandomNetwork(nodeCount, density, rand, euclid);
      network := generated;
      optimizationResults := None;
    }
  }
}
