/**
 * The metrics of `src/components/DataAnalysis.tsx`, computed from the
 * convergence data of a result: the first and last recorded costs, the
 * improvement between them, and the iteration by which 90% of that
 * improvement had been reached.
 *
 * Costs are exact reals; a `NaN` cost is not modelled. The `|| 0` fallbacks
 * of the source only differ from the recorded cost when there is no record
 * (a recorded cost of 0 falls back to 0 as well).
 */
module DataAnalysis {
  import opened SupplyChainModel

  /** `convergenceData[0]?.bestCost || 0`. */
  function InitialCost(data: seq<ConvergencePoint>): (c: real)
    ensures |data| > 0 ==> c == data[0].bestCost
    ensures |data| == 0 ==> c == 0.0
  {
    if |data| > 0 then data[0].bestCost else 0.0
  }

  /** `convergenceData[convergenceData.length - 1]?.bestCost || 0`. */
  function FinalCost(data: seq<ConvergencePoint>): (c: real)
    ensures |data| > 0 ==> c == data[|data| - 1].bestCost
    ensures |data| == 0 ==> c == 0.0
  {
    if |data| > 0 then data[|data| - 1].bestCost else 0.0
  }

  function TotalImprovement(data: seq<ConvergencePoint>): real
  {
    InitialCost(data) - FinalCost(data)
  }

  /** The improvement as a percentage of the initial cost; 0 when the initial
      cost is 0 (or missing). */
  function PercentImprovement(data: seq<ConvergencePoint>): (p: real)
    ensures InitialCost(data) == 0.0 ==> p == 0.0
    ensures InitialCost(data) != 0.0 ==> p * InitialCost(data) == 100.0 * TotalImprovement(data)
  {
    var initial := InitialCost(data);
    if initial != 0.0 then (TotalImprovement(data) / initial) * 100.0 else 0.0
  }

  /** Record `i` is at least 90% of the total improvement below the initial cost. */
  predicate Reaches(data: seq<ConvergencePoint>, i: nat)
    requires i < |data|
  {
    InitialCost(data) - data[i].bestCost >= TotalImprovement(data) * 0.9
  }

  /** In a non-empty history some record reaches the target: the first one
      when there is no improvement, the last one otherwise. */
  lemma SomeRecordReaches(data: seq<ConvergencePoint>)
    requires |data| > 0
    ensures TotalImprovement(data) <= 0.0 ==> Reaches(data, 0)
    ensures TotalImprovement(data) >= 0.0 ==> Reaches(data, |data| - 1)
  {
  }

  /** `convergenceIteration`: the 1-based index of the first record that
      reaches the target, or the number of records when none does. The
      fallback is only ever taken for an empty history. */
  method ConvergenceIteration(data: seq<ConvergencePoint>) returns (k: nat)
    ensures k <= |data|
    ensures k > 0 ==> Reaches(data, k - 1)
    ensures forall i :: 0 <= i < k - 1 ==> !Reaches(data, i)
    ensures k == 0 <==> |data| == 0
    ensures |data| > 0 && TotalImprovement(data) <= 0.0 ==> k == 1
  {
    k := |data|;
    var i := 0;
    while i < |data|
      invariant 0 <= i <= |data|
      invariant forall j :: 0 <= j < i ==> !Reaches(data, j)
    {
      if InitialCost(data) - data[i].bestCost >= TotalImprovement(data) * 0.9 {
        k := i + 1;
        break;
      }
      i := i + 1;
    }
    if |data| > 0 {
      SomeRecordReaches(data);
    }
  }

  /** A history whose recorded costs never go up shows a non-negative
      improvement, at most the whole initial cost when costs stay non-negative. */
  lemma NonIncreasingImproves(data: seq<ConvergencePoint>)
    requires forall a, b :: 0 <= a < b < |data| ==> data[b].bestCost <= data[a].bestCost
    requires forall a :: 0 <= a < |data| ==> data[a].bestCost >= 0.0
    requires InitialCost(data) > 0.0
    ensures 0.0 <= PercentImprovement(data) <= 100.0
  {
  }
}
