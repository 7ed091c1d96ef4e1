/** Why the whole-run theorem leaves out the HCR mode: there set_btune_cparams
    caps the level, so climbing levels never reach their end, and a compression
    ratio that keeps rising keeps the tuner busy for as long as it rises.  What
    does hold there is in BTuneAnyMode. */
module BTuneHcr {
  import opened BTuneSpec
  import opened BTuneRuns
  import opened BTuneAnyMode

  /** A measurement with a better ratio than the best so far. */
  function Better(t: Tuner): Measurement { Measurement(1.0, t.best.cratio + 1.0, false) }

  lemma {:induction false} RunAppend(t: Tuner, xs: seq<Measurement>, ys: seq<Measurement>)
    requires t.Safe() && AllValid(xs) && AllValid(ys)
    ensures Run(t, xs).Safe() && AllValid(xs + ys) && Run(t, xs + ys) == Run(Run(t, xs), ys)
    decreases |xs|
  {
    RunIsSafe(t, xs);
    hide Tuner.Safe, Tuner.Step;
    assert AllValid(xs + ys);
    if xs == [] {
      assert xs + ys == ys;
    } else {
      assert (xs + ys)[1..] == xs[1..] + ys;
      StepIsSafe(t, xs[0]);
      RunAppend(t.Step(xs[0]), xs[1..], ys);
    }
  }

  lemma BetterWins(t: Tuner)
    requires t.config.comp.CompHCR? && t.best.cratio > 0.0
    ensures Better(t).Valid() && t.Wins(Better(t))
  {
    var c := t.best.cratio;
    var q := (c + 1.0) / c;
    assert q * c == c + 1.0;
    PositiveFactor(q - 1.0, c);
  }

  lemma PositiveFactor(a: real, c: real)
    requires c > 0.0 && a * c > 0.0
    ensures a > 0.0
  {}

  /** Levels rising, and capped below where rising would end. */
  predicate Climbing(t: Tuner) {
    t.Safe() && t.config.comp.CompHCR? && t.state.Clevel? && t.best.increasing && t.best.clevel <= 6
  }

  lemma ClimbingStays(t: Tuner)
    requires Climbing(t)
    ensures Better(t).Valid() && Climbing(t.Step(Better(t)))
  {
    BetterWins(t);
    StepIsSafe(t, Better(t));
    hide Tuner.ProcessWaiting, Improved;
  }

  lemma {:induction false} ClimbingForever(t: Tuner, n: nat) returns (ms: seq<Measurement>)
    requires Climbing(t)
    ensures |ms| == n && AllValid(ms) && Climbing(Run(t, ms))
    decreases n
  {
    if n == 0 {
      ms := [];
    } else {
      hide Tuner.Step;
      ClimbingStays(t);
      var rest := ClimbingForever(t.Step(Better(t)), n - 1);
      ms := [Better(t)] + rest;
      assert ms[1..] == rest;
    }
  }

  /** Measurements of special chunks leave the best parameters alone. */
  lemma SpecialKeepsBest(t: Tuner)
    requires t.Safe() && t.state.CodecFilter?
    ensures t.auxIndex / FILTER_SPLIT_LIMIT < |t.codecs|
    ensures t.Step(SPECIAL).best == t.best && t.Step(SPECIAL).config == t.config
  {
    SafeIndex(t);
    hide Improved;
  }

  lemma {:induction false} SpecialRun(t: Tuner, n: nat) returns (ms: seq<Measurement>)
    requires t.Safe() && t.state.CodecFilter? && t.auxIndex + n == FILTER_SPLIT_LIMIT * |t.codecs|
    ensures |ms| == n && AllValid(ms) && forall m | m in ms :: m == SPECIAL
    ensures var u := Run(t, ms);
            u.Safe() && u.state.Clevel? && u.auxIndex == 0 && u.best == t.best && u.config == t.config
    decreases n
  {
    SpecialKeepsBest(t);
    StepIsSafe(t, SPECIAL);
    CodecPhaseStep(t, SPECIAL);
    hide Tuner.Step;
    if n == 1 {
      ms := [SPECIAL];
      assert ms[1..] == [];
    } else {
      var rest := SpecialRun(t.Step(SPECIAL), n - 1);
      ms := [SPECIAL] + rest;
      assert ms[1..] == rest;
    }
  }

  /** The first codec tried, accepted: its level is capped. */
  lemma FirstAccepted(config: Config, context: CParams)
    requires config.comp.CompHCR? && !config.hint && |config.Codecs()| > 0
    ensures var t := Init(config, context);
            && t.Safe() && Better(t).Valid() && t.best.cratio >= 1.0 && t.config.comp.CompHCR?
            && var u := t.Step(Better(t));
               u.Safe() && u.state.CodecFilter? && u.auxIndex == 1 && u.codecs == config.Codecs() &&
               u.config.comp.CompHCR? && u.best.clevel <= 6 && !u.best.increasing && 3 <= u.best.clevel
  {
    InitIsSafe(config, context);
    var t := Init(config, context);
    BetterWins(t);
    StepIsSafe(t, Better(t));
    hide Improved;
  }

  /** A first level that does not improve turns the direction upwards. */
  lemma TurnsUp(t: Tuner)
    requires t.Safe() && t.config.comp.CompHCR? && t.state.Clevel? && t.auxIndex == 0 && !t.best.increasing
    requires t.best.clevel <= 6
    ensures Climbing(t.Step(SPECIAL))
  {
    StepIsSafe(t, SPECIAL);
    hide Tuner.ProcessWaiting, Improved;
  }

  lemma AboveAppend(t: Tuner, xs: seq<Measurement>, ys: seq<Measurement>)
    requires t.Safe() && AllValid(xs) && AllValid(ys)
    ensures AllValid(xs + ys) && |Above(t, xs + ys)| <= |Above(t, xs)| + |Above(t, ys)|
  {
    assert AllValid(xs + ys);
    hide Value, Potential;
    var a, b := Above(t, xs), Above(t, ys);
    assert Above(t, xs + ys) == a + b;
    assert |a + b| == |a| + |b - a| by { assert a + b == a + (b - a); }
    SmallerSet(b - a, b);
  }

  lemma {:induction false} AboveFew(t: Tuner, ms: seq<Measurement>)
    requires t.Safe() && AllValid(ms)
    ensures |Above(t, ms)| <= |ms|
    decreases |ms|
  {
    if ms == [] {
      assert Above(t, ms) == {};
    } else {
      var first, rest := [ms[0]], ms[1..];
      assert ms == first + rest && AllValid(first) && AllValid(rest);
      hide Value, Potential, Tuner.Safe;
      AboveFew(t, rest);
      AboveAppend(t, first, rest);
      assert Above(t, first) <= {Value(t.config.comp, ms[0])};
      SmallerSet(Above(t, first), {Value(t.config.comp, ms[0])});
    }
  }

  lemma NoneAbove(t: Tuner, ms: seq<Measurement>)
    requires t.Safe() && AllValid(ms) && t.config.comp.CompHCR? && t.best.cratio >= 1.0
    requires forall m | m in ms :: m == SPECIAL
    ensures Above(t, ms) == {}
  {}

  /** In HCR mode, whatever the rest of the configuration, there are runs of any
      length after which the tuner has not stopped: with at most n + 1 different
      ratios above the first, a run of n + 1 compressions and a whole codec phase. */
  lemma HcrNeedNotStop(config: Config, context: CParams, n: nat) returns (ms: seq<Measurement>)
    requires config.comp.CompHCR? && !config.hint && |config.Codecs()| > 0
    ensures |ms| == FILTER_SPLIT_LIMIT * |config.Codecs()| + n + 1 && AllValid(ms) && Init(config, context).Safe()
    ensures !Run(Init(config, context), ms).state.Stop?
    ensures |Above(Init(config, context), ms)| <= n + 1
  {
    FirstAccepted(config, context);
    var t0 := Init(config, context);
    hide Tuner.Step, Tuner.Safe, Init;
    var first := [Better(t0)];
    var t1 := t0.Step(Better(t0));
    assert Run(t0, first) == t1 by { assert first[1..] == []; }
    var codecs := SpecialRun(t1, FILTER_SPLIT_LIMIT * |t1.codecs| - 1);
    var t2 := Run(t1, codecs);
    TurnsUp(t2);
    var turn := [SPECIAL];
    var t3 := t2.Step(SPECIAL);
    assert Run(t2, turn) == t3 by { assert turn[1..] == []; }
    var climb := ClimbingForever(t3, n);
    RunAppend(t0, first, codecs);
    RunAppend(t0, first + codecs, turn);
    RunAppend(t0, first + codecs + turn, climb);
    ms := first + codecs + turn + climb;
    FewRatios(t0, first, codecs, turn, climb);
  }

  lemma FewRatios(t: Tuner, first: seq<Measurement>, codecs: seq<Measurement>, turn: seq<Measurement>,
                  climb: seq<Measurement>)
    requires t.Safe() && t.config.comp.CompHCR? && t.best.cratio >= 1.0
    requires AllValid(first) && AllValid(codecs) && AllValid(turn) && AllValid(climb)
    requires (forall m | m in codecs :: m == SPECIAL) && forall m | m in turn :: m == SPECIAL
    ensures AllValid(first + codecs + turn + climb)
    ensures |Above(t, first + codecs + turn + climb)| <= |first| + |climb|
  {
    NoneAbove(t, codecs);
    NoneAbove(t, turn);
    hide Value, Potential, Above, Tuner.Safe, AllValid;
    AboveFew(t, first);
    AboveFew(t, climb);
    AboveAppend(t, first, codecs);
    AboveAppend(t, first + codecs, turn);
    AboveAppend(t, first + codecs + turn, climb);
  }

  /** The bound of BTuneAnyMode cannot be improved to less than one compression per
      value and a codec phase: for every number k of values there is an HCR run that
      is that long, takes no more values above the first, and has not stopped. */
  lemma ValuesAreNeeded(config: Config, context: CParams, k: nat) returns (ms: seq<Measurement>)
    requires config.comp.CompHCR? && !config.hint && |config.Codecs()| > 0 && k > 0
    ensures AllValid(ms) && Init(config, context).Safe()
    ensures |Above(Init(config, context), ms)| <= k && |ms| == FILTER_SPLIT_LIMIT * |config.Codecs()| + k
    ensures !Run(Init(config, context), ms).state.Stop?
  {
    ms := HcrNeedNotStop(config, context, k - 1);
  }

  /** After `bound` compressions the tuner has stopped, whatever was measured. */
  ghost predicate StopsWithin(config: Config, context: CParams, bound: nat)
    requires Unhinted(config)
  {
    InitIsSafe(config, context);
    forall ms | |ms| >= bound && AllValid(ms) :: Run(Init(config, context), ms).state.Stop?
  }

  predicate Unhinted(config: Config) { !config.hint && |config.Codecs()| > 0 }

  /** In repeat mode STOP and without a hint, the number of compressions before
      the stop is bounded exactly when the mode is not HCR. */
  lemma StopsExactly(config: Config, context: CParams)
    requires Unhinted(config) && config.repeat.RepeatStop?
    ensures (exists bound: nat :: StopsWithin(config, context, bound)) <==> !config.comp.CompHCR?
  {
    InitIsSafe(config, context);
    if config.comp.CompHCR? {
      forall bound: nat ensures !StopsWithin(config, context, bound) {
        var ms := HcrNeedNotStop(config, context, bound);
      }
    } else {
      var bound := StepBound(config);
      BoundPositive(config);
      hide Run;
      forall ms | |ms| >= bound && AllValid(ms) ensures Run(Init(config, context), ms).state.Stop? {
        WholeRun(config, context, ms);
      }
      assert StopsWithin(config, context, bound);
    }
  }

  lemma BoundPositive(config: Config)
    ensures StepBound(config) >= 0
  {
    hide Times;
    TimesPositive(config.hards + 1, FILTER_SPLIT_LIMIT * |config.Codecs()| + CLEVEL_STEPS);
    TimesPositive(config.hards, config.softs);
    TimesPositive(config.softs, config.waits);
    TimesPositive(config.hards, WaitsPerHard(config.softs, config.waits));
  }
}
