/**
 * The playback of `src/components/ACOSimulation.tsx`: a step counter
 * `simulationStep` and a flag `isPlaying`, changed by the timer tick, the
 * play/pause button, the skip button and the arrival of new results, and the
 * cost figures shown for the current step.
 *
 * The timer delay and the speed slider are left out: a tick is one discrete
 * event. The pure transition functions specify the class `Simulation`,
 * whose handlers change its fields in place.
 */
module AcoSimulation {
  import opened Wrappers
  import opened SupplyChainModel
  import DataAnalysis

  /** The component state that the handlers read and write. */
  datatype Playback = Playback(results: Option<OptimizationResult>, step: int, playing: bool)

  /** `optimizationResults?.convergenceData.length || 0`. */
  function MaxSteps(p: Playback): nat
  {
    if p.results.Some? then |p.results.value.convergenceData| else 0
  }

  /** The reset effect, run on mount and whenever new results arrive. */
  function Reset(results: Option<OptimizationResult>): Playback
  {
    Playback(results, 0, false)
  }

  /** The timer callback: nothing unless playing with results; otherwise
      advance by one, or stop at the last step. */
  function Tick(p: Playback): Playback
  {
    if !p.playing || p.results.None? then p
    else if p.step < MaxSteps(p) - 1 then p.(step := p.step + 1)
    else p.(playing := false)
  }

  /** The play/pause button. */
  function Toggle(p: Playback): Playback
  {
    p.(playing := !p.playing)
  }

  /** The skip button: jump to the last step (-1 for an empty history) and stop. */
  function Skip(p: Playback): Playback
  {
    p.(step := MaxSteps(p) - 1, playing := false)
  }

  datatype Event = TimerTick | TogglePlay | SkipToEnd | NewResults(results: Option<OptimizationResult>)

  function Apply(p: Playback, e: Event): Playback
  {
    match e
    case TimerTick => Tick(p)
    case TogglePlay => Toggle(p)
    case SkipToEnd => Skip(p)
    case NewResults(r) => Reset(r)
  }

  /** The state after a sequence of events, applied first to last. */
  function Run(p: Playback, events: seq<Event>): Playback
    decreases |events|
  {
    if events == [] then p else Run(Apply(p, events[0]), events[1..])
  }

  /** The state after `n` timer ticks. */
  function Ticks(p: Playback, n: nat): Playback
    decreases n
  {
    if n == 0 then p else Ticks(Tick(p), n - 1)
  }

  /** The step indexes a record, or is the -1 that a skip over an empty
      history leaves, or the initial 0. */
  ghost predicate InRange(p: Playback)
  {
    if MaxSteps(p) == 0 then p.step == 0 || p.step == -1 else 0 <= p.step < MaxSteps(p)
  }

  /** The step lies in `[0, max(0, maxSteps - 1)]`. */
  ghost predicate InPlayRange(p: Playback)
  {
    0 <= p.step && (p.step == 0 || p.step < MaxSteps(p))
  }

  // ---------------------------------------------------------------------------
  // Single transitions

  /** A tick changes nothing unless playing with results present, keeps the
      results, and when it acts either advances the step by exactly one or,
      at the last step or beyond, stops playback and leaves the step alone. */
  lemma TickCases(p: Playback)
    ensures Tick(p).results == p.results
    ensures !p.playing || p.results.None? ==> Tick(p) == p
    ensures p.playing && p.results.Some? && p.step < MaxSteps(p) - 1 ==>
      Tick(p).step == p.step + 1 && Tick(p).playing
    ensures p.playing && p.results.Some? && p.step >= MaxSteps(p) - 1 ==>
      Tick(p).step == p.step && !Tick(p).playing
  {
  }

  /** New results put the playback at step 0, paused; the play button flips
      `isPlaying` and nothing else; skip stops at the last step. */
  lemma ControlCases(p: Playback, r: Option<OptimizationResult>)
    ensures Apply(p, NewResults(r)) == Playback(r, 0, false)
    ensures Toggle(p).step == p.step && Toggle(p).results == p.results && Toggle(p).playing != p.playing
    ensures Skip(p).step == MaxSteps(p) - 1 && !Skip(p).playing && Skip(p).results == p.results
    ensures MaxSteps(p) == 0 ==> Skip(p).step == -1
  {
  }

  // ---------------------------------------------------------------------------
  // Sequences of transitions

  /** Any sequence of events keeps the step in range. */
  lemma {:induction false} RunStaysInRange(p: Playback, events: seq<Event>)
    requires InRange(p)
    ensures InRange(Run(p, events))
    decreases |events|
  {
    if events != [] {
      var q := Apply(p, events[0]);
      assert InRange(q);
      RunStaysInRange(q, events[1..]);
    }
  }

  /** Ticks alone, from a step in `[0, max(0, maxSteps - 1)]`, stay there. */
  lemma {:induction false} TicksStayInPlayRange(p: Playback, n: nat)
    requires InPlayRange(p)
    ensures InPlayRange(Ticks(p, n))
    ensures Ticks(p, n).results == p.results
    decreases n
  {
    if n > 0 {
      TicksStayInPlayRange(Tick(p), n - 1);
    }
  }

  /** Playing from step `s` with results: after `n` ticks the step is
      `s + n` while that is before the last step, and from then on playback
      has stopped at the last step (at step `s` if it was already there). */
  lemma {:induction false} PlayThrough(p: Playback, n: nat)
    requires p.playing && p.results.Some? && 0 <= p.step
    ensures var last := if p.step < MaxSteps(p) - 1 then MaxSteps(p) - 1 else p.step;
      Ticks(p, n) == if n == 0 || p.step + n < MaxSteps(p)
                     then p.(step := p.step + n)
                     else p.(step := last, playing := false)
    decreases n
  {
    if n > 0 {
      if p.step < MaxSteps(p) - 1 {
        PlayThrough(Tick(p), n - 1);
      } else {
        StoppedStays(Tick(p), n - 1);
      }
    }
  }

  /** Once paused, ticks change nothing. */
  lemma {:induction false} StoppedStays(p: Playback, n: nat)
    requires !p.playing
    ensures Ticks(p, n) == p
    decreases n
  {
    if n > 0 {
      StoppedStays(Tick(p), n - 1);
    }
  }

  // ---------------------------------------------------------------------------
  // Displayed figures

  /** `convergenceData[simulationStep]?.bestCost || 0`. */
  function CurrentCost(p: Playback): (c: real)
    ensures p.results.Some? && 0 <= p.step < MaxSteps(p) ==>
      c == p.results.value.convergenceData[p.step].bestCost
    ensures !(0 <= p.step < MaxSteps(p)) ==> c == 0.0
  {
    if 0 <= p.step < MaxSteps(p) then p.results.value.convergenceData[p.step].bestCost else 0.0
  }

  /** `100 * (1 - currentCost / convergenceData[0].bestCost)`, or 0 when the
      first cost is 0 or missing. */
  function PercentImprovement(p: Playback): (pct: real)
    ensures MaxSteps(p) == 0 ==> pct == 0.0
    ensures MaxSteps(p) > 0 && p.results.value.convergenceData[0].bestCost == 0.0 ==> pct == 0.0
    ensures MaxSteps(p) > 0 && p.results.value.convergenceData[0].bestCost != 0.0 ==>
      pct * p.results.value.convergenceData[0].bestCost
        == 100.0 * (p.results.value.convergenceData[0].bestCost - CurrentCost(p))
  {
    if MaxSteps(p) > 0 && p.results.value.convergenceData[0].bestCost != 0.0 then
      var first := p.results.value.convergenceData[0].bestCost;
      assert (1.0 - CurrentCost(p) / first) * first == first - CurrentCost(p);
      100.0 * (1.0 - CurrentCost(p) / first)
    else 0.0
  }

  /** At the last step the playback shows the same improvement as the data
      analysis panel. */
  lemma LastStepAgreesWithAnalysis(p: Playback)
    requires p.results.Some? && MaxSteps(p) > 0 && p.step == MaxSteps(p) - 1
    ensures PercentImprovement(p) == DataAnalysis.PercentImprovement(p.results.value.convergenceData)
  {
  }

  // ---------------------------------------------------------------------------
  // The component

  class Simulation {
    var optimizationResults: Option<OptimizationResult>
    var simulationStep: int
    var isPlaying: bool

    function State(): Playback
      reads this
    {
      Playback(optimizationResults, simulationStep, isPlaying)
    }

    /** Mounting: step 0, paused. */
    constructor (optimizationResults: Option<OptimizationResult>)
      ensures State() == Reset(optimizationResults)
    {
      this.optimizationResults := optimizationResults;
      this.simulationStep := 0;
      this.isPlaying := false;
    }

    /** New results arrive: the reset effect. */
    method ReceiveResults(results: Option<OptimizationResult>)
      modifies this
      ensures State() == Reset(results)
    {
      optimizationResults := results;
      simulationStep := 0;
      isPlaying := false;
    }

    /** The timer fires. */
    method OnTimer()
      modifies this
      ensures State() == Tick(old(State()))
    {
      if !isPlaying || optimizationResults.None? {
        return;
      }
      var maxSteps := |optimizationResults.value.convergenceData|;
      if simulationStep < maxSteps - 1 {
        simulationStep := simulationStep + 1;
      } else {
        isPlaying := false;
      }
    }

    method OnPlayPause()
      modifies this
      ensures State() == Toggle(old(State()))
    {
      isPlaying := !isPlaying;
    }

    method OnSkip()
      modifies this
      ensures State() == Skip(old(State()))
    {
      var maxSteps := if optimizationResults.Some? then |optimizationResults.value.convergenceData| else 0;
      simulationStep := maxSteps - 1;
      isPlaying := false;
    }
  }
}
