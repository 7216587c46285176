/**
 * The `AntColonyOptimizer` listing of `src/components/PythonInfo.tsx`: the
 * constructor and the incumbent-tracking `run` loop.
 *
 * `_generate_paths` and `_update_pheromones` are not part of the listing.
 * The `(paths, costs)` pair that `_generate_paths` returns in each iteration
 * is read from an oracle sequence `rounds`, and the pheromone update is an
 * opaque function `update` of the old matrix and that iteration's paths and
 * costs; the model invents neither.
 */
module ColonyOptimizer {
  import opened Wrappers

  /** A Python float cost as far as `run` uses it: finite, or `float('inf')`. */
  datatype Cost = Finite(value: real) | Infinite

  /** Python's `<` on such costs. */
  predicate Less(a: Cost, b: Cost)
  {
    match a
    case Infinite => false
    case Finite(x) => b.Infinite? || x < b.value
  }

  /** `<` on costs is a strict total order with `inf` above every float. */
  lemma LessOrder(a: Cost, b: Cost, c: Cost)
    ensures !Less(a, a)
    ensures Less(a, b) ==> !Less(b, a)
    ensures Less(a, b) && Less(b, c) ==> Less(a, c)
    ensures a != b ==> Less(a, b) || Less(b, a)
    ensures a.Finite? <==> Less(a, Infinite)
  {
  }

  /** The smaller of two costs; the first one on a tie. */
  function Min(a: Cost, b: Cost): (m: Cost)
    ensures !Less(a, m) && !Less(b, m) && (m == a || m == b)
  {
    if Less(b, a) then b else a
  }

  type Path = seq<int>
  type Matrix = seq<seq<real>>

  /** What `self._generate_paths()` returns in one iteration. */
  datatype Round = Round(paths: seq<Path>, costs: seq<Cost>)

  /** One `self.history` record: `{'iteration': ..., 'best_cost': ...}`. */
  datatype HistoryEntry = HistoryEntry(iteration: int, bestCost: Cost)

  /** `self._update_pheromones(paths, costs)`, as a function of the matrix before it. */
  type PheromoneUpdate = (Matrix, seq<Path>, seq<Cost>) -> Matrix

  /** `np.argmin`: the first index holding the least cost. */
  function ArgMin(costs: seq<Cost>): (k: nat)
    requires |costs| > 0
    ensures k < |costs|
    ensures forall j :: 0 <= j < |costs| ==> !Less(costs[j], costs[k])
    ensures forall j :: 0 <= j < k ==> Less(costs[k], costs[j])
  {
    if |costs| == 1 then 0
    else
      var k := ArgMin(costs[..|costs| - 1]);
      assert forall j :: 0 <= j < |costs| - 1 ==> costs[..|costs| - 1][j] == costs[j];
      if Less(costs[|costs| - 1], costs[k]) then |costs| - 1 else k
  }

  /** The least cost of a list, `Infinite` for an empty one. */
  function MinOf(costs: seq<Cost>): (m: Cost)
    ensures forall j :: 0 <= j < |costs| ==> !Less(costs[j], m)
    ensures m == Infinite || m in costs
  {
    if costs == [] then Infinite
    else
      var m := MinOf(costs[..|costs| - 1]);
      assert forall j :: 0 <= j < |costs| - 1 ==> costs[..|costs| - 1][j] == costs[j];
      Min(m, costs[|costs| - 1])
  }

  /** The least of a starting cost and every cost produced in every round. */
  function MinAll(start: Cost, rounds: seq<Round>): Cost
  {
    if rounds == [] then start
    else Min(MinAll(start, rounds[..|rounds| - 1]), MinOf(rounds[|rounds| - 1].costs))
  }

  /** `np.argmin` picks a cost equal to the least one. */
  lemma ArgMinIsMin(costs: seq<Cost>)
    requires |costs| > 0
    ensures costs[ArgMin(costs)] == MinOf(costs)
  {
  }

  // ---------------------------------------------------------------------------
  // The object's state and one iteration of `run`

  /** The fields `run` reads and writes. */
  datatype Snapshot = Snapshot(
    pheromones: Matrix, bestPath: Option<Path>, bestCost: Cost, history: seq<HistoryEntry>)

  /** How `run` ends: normally, or by the `ValueError` that `np.argmin` raises on
      an empty cost list, in which case the fields keep what was written so far. */
  datatype Outcome = Completed(state: Snapshot) | Raised(state: Snapshot)

  /** The state a fresh optimizer starts from, apart from its pheromones. */
  predicate IsFresh(s: Snapshot)
  {
    s.bestPath == None && s.bestCost == Infinite && s.history == []
  }

  /** The incumbent is present exactly when its cost is finite; the recorded
      best costs never go up and the last one is the current incumbent cost. */
  ghost predicate Consistent(s: Snapshot)
  {
    && (s.bestPath.None? <==> s.bestCost.Infinite?)
    && (forall a, b :: 0 <= a < b < |s.history| ==> !Less(s.history[a].bestCost, s.history[b].bestCost))
    && (|s.history| > 0 ==> s.history[|s.history| - 1].bestCost == s.bestCost)
  }

  /** The body of the `for iteration in range(n_iterations)` loop. */
  function Iterate(s: Snapshot, r: Round, iteration: nat, update: PheromoneUpdate): Outcome
    requires |r.paths| == |r.costs|
  {
    var pheromones := update(s.pheromones, r.paths, r.costs);
    if |r.costs| == 0 then Raised(s.(pheromones := pheromones))
    else
      var best := ArgMin(r.costs);
      var path := if Less(r.costs[best], s.bestCost) then Some(r.paths[best]) else s.bestPath;
      var cost := if Less(r.costs[best], s.bestCost) then r.costs[best] else s.bestCost;
      Completed(Snapshot(pheromones, path, cost, s.history + [HistoryEntry(iteration + 1, cost)]))
  }

  ghost predicate WellShaped(rounds: seq<Round>)
  {
    forall r :: r in rounds ==> |r.paths| == |r.costs|
  }

  /** The loop run over `rounds`, one per iteration, from state `s`. */
  function Replay(s: Snapshot, rounds: seq<Round>, update: PheromoneUpdate): Outcome
    requires WellShaped(rounds)
  {
    if rounds == [] then Completed(s)
    else
      var prefix := rounds[..|rounds| - 1];
      assert forall r :: r in prefix ==> r in rounds;
      match Replay(s, prefix, update)
      case Raised(t) => Raised(t)
      case Completed(t) => Iterate(t, rounds[|rounds| - 1], |rounds| - 1, update)
  }

  // ---------------------------------------------------------------------------
  // What one iteration does

  /** Each iteration applies the pheromone update to the paths and costs just
      generated, before the incumbent is looked at, and an empty cost list
      stops the run right after that update, with nothing recorded. */
  lemma IterateOrder(s: Snapshot, r: Round, iteration: nat, update: PheromoneUpdate)
    requires |r.paths| == |r.costs|
    ensures Iterate(s, r, iteration, update).state.pheromones == update(s.pheromones, r.paths, r.costs)
    ensures Iterate(s, r, iteration, update).Raised? <==> |r.costs| == 0
    ensures Iterate(s, r, iteration, update).Raised? ==>
      Iterate(s, r, iteration, update).state == s.(pheromones := update(s.pheromones, r.paths, r.costs))
  {
  }

  /** The incumbent changes only on a strict improvement, to the first path
      of this iteration with the least cost (ties go to the lowest index, as
      `np.argmin` picks); a tie or a worse iteration keeps it. */
  lemma IterateStrictImprovement(s: Snapshot, r: Round, iteration: nat, update: PheromoneUpdate)
    requires |r.paths| == |r.costs| && |r.costs| > 0
    ensures var t := Iterate(s, r, iteration, update).state;
      && (Less(MinOf(r.costs), s.bestCost) ==>
            t.bestCost == MinOf(r.costs) && t.bestPath == Some(r.paths[ArgMin(r.costs)]))
      && (!Less(MinOf(r.costs), s.bestCost) ==> t.bestPath == s.bestPath && t.bestCost == s.bestCost)
      && t.history == s.history + [HistoryEntry(iteration + 1, t.bestCost)]
  {
    ArgMinIsMin(r.costs);
  }

  lemma IterateConsistent(s: Snapshot, r: Round, iteration: nat, update: PheromoneUpdate)
    requires |r.paths| == |r.costs| && Consistent(s)
    ensures Consistent(Iterate(s, r, iteration, update).state)
  {
  }

  // ---------------------------------------------------------------------------
  // What the whole loop does

  lemma PrefixWellShaped(rounds: seq<Round>)
    requires WellShaped(rounds) && |rounds| > 0
    ensures WellShaped(rounds[..|rounds| - 1])
  {
  }

  /** Once an iteration has raised, the later ones never run. */
  lemma {:induction false} RaisedStops(s: Snapshot, rounds: seq<Round>, m: nat, update: PheromoneUpdate)
    requires WellShaped(rounds) && m <= |rounds|
    requires WellShaped(rounds[..m]) && Replay(s, rounds[..m], update).Raised?
    ensures Replay(s, rounds, update) == Replay(s, rounds[..m], update)
  {
    if m < |rounds| {
      var prefix := rounds[..|rounds| - 1];
      PrefixWellShaped(rounds);
      assert prefix[..m] == rounds[..m];
      RaisedStops(s, prefix, m, update);
    } else {
      assert rounds[..m] == rounds;
    }
  }

  /** A run completes exactly when no iteration produced an empty cost list;
      otherwise `np.argmin` raises in the first such iteration. */
  lemma {:induction false} ReplayCompletes(s: Snapshot, rounds: seq<Round>, update: PheromoneUpdate)
    requires WellShaped(rounds)
    ensures Replay(s, rounds, update).Completed? <==> forall k :: 0 <= k < |rounds| ==> |rounds[k].costs| > 0
  {
    if rounds != [] {
      var prefix := rounds[..|rounds| - 1];
      PrefixWellShaped(rounds);
      ReplayCompletes(s, prefix, update);
      assert forall k :: 0 <= k < |prefix| ==> prefix[k] == rounds[k];
    }
  }

  /** A completed run appends one record per iteration, numbered from 1, and
      keeps the records that were there before. */
  lemma {:induction false} ReplayHistory(s: Snapshot, rounds: seq<Round>, update: PheromoneUpdate)
    requires WellShaped(rounds)
    ensures Replay(s, rounds, update).Completed? ==>
      var h := Replay(s, rounds, update).state.history;
      && |h| == |s.history| + |rounds|
      && h[..|s.history|] == s.history
      && forall j :: |s.history| <= j < |h| ==> h[j].iteration == j - |s.history| + 1
  {
    if rounds != [] {
      var prefix := rounds[..|rounds| - 1];
      PrefixWellShaped(rounds);
      ReplayHistory(s, prefix, update);
    }
  }

  /** Every run, completed or not, leaves a consistent state: in particular
      the recorded best costs are non-increasing. */
  lemma {:induction false} ReplayConsistent(s: Snapshot, rounds: seq<Round>, update: PheromoneUpdate)
    requires WellShaped(rounds) && Consistent(s)
    ensures Consistent(Replay(s, rounds, update).state)
  {
    if rounds != [] {
      var prefix := rounds[..|rounds| - 1];
      PrefixWellShaped(rounds);
      ReplayConsistent(s, prefix, update);
      match Replay(s, prefix, update)
      case Raised(t) =>
      case Completed(t) => IterateConsistent(t, rounds[|rounds| - 1], |rounds| - 1, update);
    }
  }

  /** After a completed run the incumbent cost is the least of the cost it
      started with and every cost produced in every iteration. */
  lemma {:induction false} ReplayBestCost(s: Snapshot, rounds: seq<Round>, update: PheromoneUpdate)
    requires WellShaped(rounds)
    ensures Replay(s, rounds, update).Completed? ==>
      Replay(s, rounds, update).state.bestCost == MinAll(s.bestCost, rounds)
  {
    if rounds != [] {
      var prefix := rounds[..|rounds| - 1];
      PrefixWellShaped(rounds);
      ReplayBestCost(s, prefix, update);
      match Replay(s, prefix, update)
      case Raised(t) =>
      case Completed(t) =>
        var r := rounds[|rounds| - 1];
        if |r.costs| > 0 {
          ArgMinIsMin(r.costs);
        }
    }
  }

  /** The incumbent path is the one it started with, or a path some iteration
      produced, at the cost that iteration gave it. */
  lemma {:induction false} ReplayIncumbentProduced(s: Snapshot, rounds: seq<Round>, update: PheromoneUpdate)
    requires WellShaped(rounds)
    ensures var t := Replay(s, rounds, update).state;
      || (t.bestPath == s.bestPath && t.bestCost == s.bestCost)
      || exists k, i :: 0 <= k < |rounds| && 0 <= i < |rounds[k].paths|
           && t.bestPath == Some(rounds[k].paths[i]) && t.bestCost == rounds[k].costs[i]
  {
    if rounds != [] {
      var prefix := rounds[..|rounds| - 1];
      PrefixWellShaped(rounds);
      ReplayIncumbentProduced(s, prefix, update);
      var last := |rounds| - 1;
      assert forall k :: 0 <= k < last ==> prefix[k] == rounds[k];
      match Replay(s, prefix, update)
      case Raised(t) =>
      case Completed(t) =>
        var r := rounds[last];
        if |r.costs| > 0 {
          var best := ArgMin(r.costs);
          if Less(r.costs[best], t.bestCost) {
            assert Iterate(t, r, last, update).state.bestPath == Some(rounds[last].paths[best]);
          }
        }
    }
  }

  /** A run of a fresh optimizer: `n` records numbered 1..n with
      non-increasing best costs, ending at the least cost produced. */
  lemma FreshRun(s: Snapshot, rounds: seq<Round>, update: PheromoneUpdate)
    requires WellShaped(rounds) && IsFresh(s)
    requires Replay(s, rounds, update).Completed?
    ensures var t := Replay(s, rounds, update).state;
      && |t.history| == |rounds|
      && (forall k :: 0 <= k < |rounds| ==> t.history[k].iteration == k + 1)
      && (forall a, b :: 0 <= a < b < |t.history| ==> !Less(t.history[a].bestCost, t.history[b].bestCost))
      && t.bestCost == MinAll(Infinite, rounds)
  {
    ReplayHistory(s, rounds, update);
    ReplayConsistent(s, rounds, update);
    ReplayBestCost(s, rounds, update);
  }

  // ---------------------------------------------------------------------------
  // The class

  /** `np.ones(distances.shape) / len(distances)`: every entry is
      `1 / len(distances)`; an empty matrix gives an empty one. */
  function InitialPheromones(distances: Matrix): (p: Matrix)
    ensures |p| == |distances|
    ensures forall i :: 0 <= i < |p| ==> |p[i]| == |distances[i]|
    ensures forall i, j :: 0 <= i < |p| && 0 <= j < |p[i]| ==> p[i][j] * (|distances| as real) == 1.0
  {
    if |distances| == 0 then []
    else seq(|distances|, i requires 0 <= i < |distances| =>
               seq(|distances[i]|, j => 1.0 / (|distances| as real)))
  }

  ghost predicate IsRectangular(m: Matrix)
  {
    forall i, j :: 0 <= i < |m| && 0 <= j < |m| ==> |m[i]| == |m[j]|
  }

  class AntColonyOptimizer {
    const distances: Matrix
    var pheromones: Matrix
    const nAnts: int
    const decay: real
    const alpha: real
    const beta: real
    var bestPath: Option<Path>
    var bestCost: Cost
    var history: seq<HistoryEntry>

    function State(): Snapshot
      reads this
    {
      Snapshot(pheromones, bestPath, bestCost, history)
    }

    ghost predicate Valid()
      reads this
    {
      Consistent(State())
    }

    /** `__init__(self, distances, n_ants, decay, alpha=1, beta=1)`. */
    constructor (distances: Matrix, nAnts: int, decay: real, alpha: real := 1.0, beta: real := 1.0)
      requires IsRectangular(distances)
      ensures Valid() && IsFresh(State())
      ensures this.distances == distances && pheromones == InitialPheromones(distances)
      ensures this.nAnts == nAnts && this.decay == decay && this.alpha == alpha && this.beta == beta
    {
      this.distances := distances;
      this.pheromones := InitialPheromones(distances);
      this.nAnts := nAnts;
      this.decay := decay;
      this.alpha := alpha;
      this.beta := beta;
      this.bestPath := None;
      this.bestCost := Infinite;
      this.history := [];
    }

    /** `run(self, n_iterations)`; iteration `k` generates `rounds[k]`. `ok` is
        false when `np.argmin` raised on an empty cost list; otherwise the
        returned triple is `(best_path, best_cost, history)`. */
    method Run(nIterations: int, rounds: seq<Round>, update: PheromoneUpdate)
      returns (ok: bool, path: Option<Path>, cost: Cost, records: seq<HistoryEntry>)
      requires Valid()
      requires |rounds| == Max0(nIterations)
      requires WellShaped(rounds)
      modifies this
      ensures Valid()
      ensures Replay(old(State()), rounds, update) == if ok then Completed(State()) else Raised(State())
      ensures ok ==> path == bestPath && cost == bestCost && records == history
      ensures ok <==> forall k :: 0 <= k < |rounds| ==> |rounds[k].costs| > 0
    {
      ghost var start := State();
      ok, path, cost, records := true, bestPath, bestCost, history;
      var iteration := 0;
      while iteration < nIterations
        invariant 0 <= iteration <= |rounds|
        invariant WellShaped(rounds[..iteration])
        invariant Replay(start, rounds[..iteration], update) == Completed(State())
        invariant Valid()
      {
        assert rounds[iteration] in rounds;
        var paths, costs := rounds[iteration].paths, rounds[iteration].costs;
        ghost var before := State();
        IterateConsistent(before, rounds[iteration], iteration, update);
        assert rounds[..iteration + 1][..iteration] == rounds[..iteration];
        assert forall r :: r in rounds[..iteration + 1] ==> r in rounds;
        pheromones := update(pheromones, paths, costs);
        if |costs| == 0 {
          assert Replay(start, rounds[..iteration + 1], update) == Raised(State());
          RaisedStops(start, rounds, iteration + 1, update);
          ReplayCompletes(start, rounds, update);
          ok := false;
          return;
        }
        var bestIdx := ArgMin(costs);
        if Less(costs[bestIdx], bestCost) {
          bestCost := costs[bestIdx];
          bestPath := Some(paths[bestIdx]);
        }
        history := history + [HistoryEntry(iteration + 1, bestCost)];
        iteration := iteration + 1;
      }
      assert rounds[..iteration] == rounds;
      ReplayCompletes(start, rounds, update);
      path, cost, records := bestPath, bestCost, history;
    }
  }
}
