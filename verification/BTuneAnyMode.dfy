/** Whole runs of the tuner in every compression mode, HCR included: only a
    measurement that is accepted can put the stop off. */
module BTuneAnyMode {
  import opened BTuneSpec
  import opened BTuneRuns

  predicate AllValid(ms: seq<Measurement>) { forall m | m in ms :: m.Valid() }

  /** A chunk of special values only: never an improvement. */
  const SPECIAL := Measurement(1.0, 1.0, true)

  /** The schedule holds at the end of every run. */
  lemma {:induction false} RunScheduled(t: Tuner, ms: seq<Measurement>)
    requires Scheduled(t) && forall m | m in ms :: m.Valid()
    ensures t.Safe() && Scheduled(Run(t, ms)) && Run(t, ms).config == t.config
    decreases |ms|
  {
    ScheduledIsSafe(t);
    if ms != [] {
      assert ms[0] in ms;
      ScheduledStep(t, ms[0]);
      StepKeepsConfig(t, ms[0]);
      hide Scheduled, Tuner.Step;
      RunScheduled(t.Step(ms[0]), ms[1..]);
    }
  }

  /** Misses left before the stop. */
  ghost function RunMisses(t: Tuner): int { Left(t, CLEVEL_MISSES, MissesLeft(t)) }

  lemma MissesPositive(t: Tuner)
    requires Scheduled(t)
    ensures if t.state.Stop? then RunMisses(t) == 0 else RunMisses(t) > 0
  {
    if !t.state.Stop? { LeftPositive(t, CLEVEL_MISSES, MissesLeft(t)); }
  }

  lemma {:induction false} StopIsFinal(t: Tuner, ms: seq<Measurement>)
    requires t.Safe() && t.state.Stop? && forall m | m in ms :: m.Valid()
    ensures Run(t, ms).state.Stop?
    decreases |ms|
  {
    if ms != [] {
      StoppedStays(t, ms[0]);
      StepIsSafe(t, ms[0]);
      StopIsFinal(t.Step(ms[0]), ms[1..]);
    }
  }

  /** A run longer than its misses and its accepted measurements has stopped. */
  lemma {:induction false} RunStops(t: Tuner, ms: seq<Measurement>)
    requires Scheduled(t) && t.Safe() && forall m | m in ms :: m.Valid()
    requires |ms| >= RunMisses(t) + Accepted(t, ms)
    ensures Run(t, ms).state.Stop?
    decreases |ms|
  {
    MissesPositive(t);
    if t.state.Stop? {
      StopIsFinal(t, ms);
    } else if ms != [] {
      assert ms[0] in ms;
      ScheduledStep(t, ms[0]);
      StepIsSafe(t, ms[0]);
      hide Scheduled, Left, Tuner.Step, Tuner.Wins, Tuner.Safe;
      RunStops(t.Step(ms[0]), ms[1..]);
    }
  }

  /** The longest hinted schedule whose CLEVEL phases take `phase` compressions each. */
  function HintedLength(config: Config, phase: nat): int {
    Times(config.hards, FILTER_SPLIT_LIMIT * (|config.Codecs()| + 1) + phase) +
    phase * Times(config.hards, config.softs) +
    Times(config.hards, WaitsPerHard(config.softs, config.waits))
  }

  /** The steps a run takes beside those that are accepted. */
  function MissBound(config: Config): int {
    if config.hint then HintedLength(config, CLEVEL_MISSES) else ScheduleLength(config, CLEVEL_MISSES)
  }

  /** The codec list is not empty, and a hint names a level in 1..9. */
  predicate Starts(config: Config, context: CParams) {
    |config.Codecs()| > 0 && (config.hint ==> 1 <= context.clevel <= MAX_CLEVEL)
  }

  /** A hint without hard readapts, but with soft ones, is not on the schedule. */
  predicate SoftsOnlyConfig(config: Config) { config.hint && config.hards == 0 && config.softs > 0 }

  /** A hinted run starts where the first hard readapt would have left it. */
  lemma InitHinted(config: Config, context: CParams, phase: nat)
    requires config.hint && StopsAtLast(config, config.hards) && Starts(config, context) && !SoftsOnlyConfig(config)
    ensures Scheduled(Init(config, context)) && Init(config, context).auxIndex == 0
    ensures Left(Init(config, context), phase, phase) <= HintedLength(config, phase)
    ensures Init(config, context).config == config
  {
    hide Times, Config.Codecs;
    InitIsSafe(config, context);
    var t, h, s, w := Init(config, context), config.hards, config.softs, config.waits;
    TimesNext(0, s);
    TimesNext(0, w);
    TimesNext(0, WaitsPerHard(s, w));
    TimesNext(h, 0);
    if h > 0 { HardsNext(HardSteps(t, phase), h - 1); }
    CostGrows(h, HardSteps(t, phase), FILTER_SPLIT_LIMIT * (|config.Codecs()| + 1) + phase);
  }

  lemma CostGrows(h: nat, cost: nat, cost': nat)
    requires cost <= cost'
    ensures Hards(cost, h) <= Times(h, cost')
    ensures Times(h, cost') >= 0
  {
    assert h * (cost' - cost) >= 0;
  }

  /** Main result: in every mode, with a hint or without, and in repeat mode STOP, a
      tuner that has stopped has the counters of the schedule, and it has stopped as
      soon as it has compressed `MissBound` chunks more than it accepted. */
  lemma EveryMode(config: Config, context: CParams, ms: seq<Measurement>)
    requires StopsAtLast(config, config.hards) && Starts(config, context) && !SoftsOnlyConfig(config)
    requires forall m | m in ms :: m.Valid()
    ensures Init(config, context).Safe()
    ensures var start, t := Init(config, context), Run(Init(config, context), ms);
            && (t.state.Stop? ==> CountersFinal(config, t))
            && (|ms| >= MissBound(config) + Accepted(start, ms) ==> t.state.Stop?)
  {
    hide Run, Left, ScheduleLength, HintedLength, Accepted, Scheduled;
    if config.hint {
      InitHinted(config, context, CLEVEL_MISSES);
    } else {
      InitScheduled(config, context, CLEVEL_MISSES);
    }
    var start := Init(config, context);
    RunScheduled(start, ms);
    if Run(start, ms).state.Stop? { StoppedCounters(config, Run(start, ms)); }
    if |ms| >= MissBound(config) + Accepted(start, ms) { RunStops(start, ms); }
  }

  // ---------------------------------------------------------------------
  // How many measurements can be accepted

  /** The potential a measurement brings when it is accepted. */
  ghost function Value(comp: CompMode, m: Measurement): real
    requires m.Valid()
  {
    FifthPositive(m.score);
    if comp.CompHSP? then Cube(m.cratio) / Fifth(m.score) else m.cratio
  }

  /** The different values of a run that lie above what is reached already. */
  ghost function Above(t: Tuner, ms: seq<Measurement>): set<real>
    requires t.Safe() && forall m | m in ms :: m.Valid()
  {
    set m | m in ms && Value(t.config.comp, m) > Potential(t.config.comp, t.best) :: Value(t.config.comp, m)
  }

  /** The potential after a step. */
  lemma StepPotential(t: Tuner, m: Measurement)
    requires t.Safe() && m.Valid()
    ensures t.state.CodecFilter? ==> t.auxIndex / FILTER_SPLIT_LIMIT < |t.codecs|
    ensures t.Step(m).Safe() && t.Step(m).config == t.config
    ensures var comp := t.config.comp;
            if Accepts(t, m)
            then Potential(comp, t.Step(m).best) == Value(comp, m) > Potential(comp, t.best)
            else Potential(comp, t.Step(m).best) == Potential(comp, t.best)
  {
    StepIsSafe(t, m);
    StepResult(t, m);
    StepKeepsConfig(t, m);
    hide Tuner.Step, Cube, Fifth;
    if Accepts(t, m) { WinRaisesPotential(t.config.comp, t.best, t.Step(m).best); }
  }

  /** Each accepted measurement uses up one of the values above. */
  lemma {:induction false} AcceptedBelowValues(t: Tuner, ms: seq<Measurement>)
    requires t.Safe() && forall m | m in ms :: m.Valid()
    ensures Accepted(t, ms) <= |Above(t, ms)|
    decreases |ms|
  {
    if ms != [] {
      assert ms[0] in ms;
      StepPotential(t, ms[0]);
      hide Tuner.Step, Tuner.Safe, Accepts, Value, Potential;
      var u, rest := t.Step(ms[0]), ms[1..];
      AcceptedBelowValues(u, rest);
      AboveShrinks(t, u, ms);
    }
  }

  lemma AboveShrinks(t: Tuner, u: Tuner, ms: seq<Measurement>)
    requires ms != [] && ms[0].Valid() && (forall m | m in ms :: m.Valid()) && forall m | m in ms[1..] :: m.Valid()
    requires t.Safe() && u.Safe() && u.config == t.config
    requires Potential(t.config.comp, u.best) >= Potential(t.config.comp, t.best)
    ensures |Above(u, ms[1..])| <= |Above(t, ms)|
    ensures Potential(t.config.comp, u.best) == Value(t.config.comp, ms[0]) > Potential(t.config.comp, t.best) ==>
              |Above(u, ms[1..])| + 1 <= |Above(t, ms)|
  {
    hide Value, Potential;
    var comp, a, b := t.config.comp, Above(t, ms), Above(u, ms[1..]);
    assert b <= a;
    SmallerSet(b, a);
    if Potential(comp, u.best) == Value(comp, ms[0]) > Potential(comp, t.best) {
      var v := Value(comp, ms[0]);
      assert ms[0] in ms && v in a && v !in b;
      SmallerSet(b, a - {v});
    }
  }

  lemma SmallerSet<T>(a: set<T>, b: set<T>)
    requires a <= b
    ensures |a| <= |b|
  {
    assert |b| == |a| + |b - a| by { assert b == a + (b - a); }
  }

  /** In every mode, measurements of only finitely many different values make the
      tuner stop; the compression ratio alone counts outside HSP. So only values
      that rise without end keep an HCR tuner busy for ever. */
  lemma FewValuesStop(config: Config, context: CParams, ms: seq<Measurement>)
    requires StopsAtLast(config, config.hards) && Starts(config, context) && !SoftsOnlyConfig(config)
    requires forall m | m in ms :: m.Valid()
    ensures Init(config, context).Safe()
    ensures var start := Init(config, context);
            |ms| >= MissBound(config) + |Above(start, ms)| ==>
              Run(start, ms).state.Stop? && CountersFinal(config, Run(start, ms))
  {
    EveryMode(config, context, ms);
    AcceptedBelowValues(Init(config, context), ms);
  }
}
