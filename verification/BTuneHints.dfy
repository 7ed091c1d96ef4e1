/** Hinted runs in repeat mode STOP: one kind of configuration never stops, and
    every other one does (src/btune/iabtune.c). */
module BTuneHints {
  import opened BTuneSpec
  import opened BTuneRuns
  import opened BTuneAnyMode

  // ---------------------------------------------------------------------
  // Softs alone, without waits: one round of them, and then the stop

  predicate OneRound(c: Config) { SoftsOnlyConfig(c) && c.repeat.RepeatStop? && c.waits == 0 }

  predicate InRound(t: Tuner) {
    && t.Safe() && OneRound(t.config) && t.isRepeating
    && t.nhards == 0 && t.nwaitings == 0
    && match t.state
       case Clevel => t.readaptFrom.Soft? && t.nsofts < t.config.softs
       case Stop => t.nsofts == t.config.softs
       case _ => false
  }

  /** Misses before the stop. */
  function RoundLeft(t: Tuner): int {
    if t.state.Stop? then 0 else CLEVEL_MISSES * (t.config.softs - t.nsofts - 1) + MissesLeft(t)
  }

  lemma RoundStep(t: Tuner, m: Measurement)
    requires InRound(t) && m.Valid()
    ensures InRound(t.Step(m)) && t.Step(m).config == t.config && RoundLeft(t.Step(m)) <= RoundLeft(t)
    ensures !t.state.Stop? && !t.Wins(m) ==> RoundLeft(t.Step(m)) < RoundLeft(t)
  {
    StepIsSafe(t, m);
    StepKeepsConfig(t, m);
    if t.state.Stop? {
      StoppedStays(t, m);
    } else {
      ClevelUpdate(t, m);
      DueBelow(t.nsofts + 1, t.config.softs);
      hide Tuner.Step, Tuner.Wins, Due, Measured;
      var (v, improved) := Measured(t, m);
      if ClevelOver(v, improved) {
        RoundSoft(t, Turned(v, improved).(auxIndex := 0, state := Waiting));
      }
    }
  }

  /** The end of a soft readapt: the next one, or the stop. */
  lemma RoundSoft(t: Tuner, z: Tuner)
    requires InRound(t) && t.state.Clevel?
    requires z == t.(best := z.best, aux := z.aux, auxIndex := 0, state := Waiting)
    requires Due(t.nsofts + 1, t.config.softs) <==> t.nsofts + 1 == t.config.softs
    ensures var u := z.ProcessWaiting();
            && u.config == t.config && u.auxIndex == 0 && u.isRepeating
            && u.nhards == 0 && u.nwaitings == 0 && u.nsofts == t.nsofts + 1
            && if u.nsofts == u.config.softs then u.state.Stop? else u.state.Clevel? && u.readaptFrom.Soft?
  {
    hide Due, Tuner.HasEndedClevel;
  }

  lemma {:induction false} RoundEnds(t: Tuner, ms: seq<Measurement>)
    requires InRound(t) && forall m | m in ms :: m.Valid()
    ensures t.Safe() && InRound(Run(t, ms)) && Run(t, ms).config == t.config
    ensures |ms| >= RoundLeft(t) + Accepted(t, ms) ==> Run(t, ms).state.Stop?
    decreases |ms|
  {
    if t.state.Stop? {
      StopIsFinal(t, ms);
    }
    if ms != [] {
      assert ms[0] in ms;
      RoundStep(t, ms[0]);
      hide Tuner.Step, Tuner.Wins;
      RoundEnds(t.Step(ms[0]), ms[1..]);
    }
  }

  // ---------------------------------------------------------------------
  // Softs and waits, but no hard readapt: one soft readapt, and then waiting

  /** Nothing ends the waiting of such a configuration. */
  predicate WaitsForEver(c: Config) { SoftsOnlyConfig(c) && c.waits > 0 }

  predicate Stuck(t: Tuner) {
    && t.Safe() && WaitsForEver(t.config) && t.config.repeat.RepeatStop? && t.isRepeating
    && ((t.state.Clevel? && t.readaptFrom.Soft?) || (t.state.Waiting? && t.readaptFrom.Wait?))
  }

  lemma StuckStays(t: Tuner, m: Measurement)
    requires Stuck(t) && m.Valid()
    ensures Stuck(t.Step(m))
  {
    StepIsSafe(t, m);
    StepKeepsConfig(t, m);
    if t.state.Clevel? {
      ClevelUpdate(t, m);
      hide Due, Tuner.Step, Tuner.Wins, Measured, Tuner.HasEndedClevel;
    } else {
      hide Due, Tuner.Wins, Tuner.HasEndedClevel;
    }
  }

  lemma {:induction false} StuckForEver(t: Tuner, ms: seq<Measurement>)
    requires Stuck(t) && forall m | m in ms :: m.Valid()
    ensures t.Safe() && !Run(t, ms).state.Stop?
    decreases |ms|
  {
    if ms != [] {
      assert ms[0] in ms;
      StuckStays(t, ms[0]);
      hide Tuner.Step;
      StuckForEver(t.Step(ms[0]), ms[1..]);
    }
  }

  // ---------------------------------------------------------------------
  // All configurations

  lemma InitSoftsOnly(config: Config, context: CParams)
    requires SoftsOnlyConfig(config) && config.repeat.RepeatStop? && Starts(config, context)
    ensures var t := Init(config, context);
            && t.config == config
            && if WaitsForEver(config) then Stuck(t) else InRound(t) && RoundLeft(t) == CLEVEL_MISSES * config.softs
  {
    hide Config.Codecs;
    InitIsSafe(config, context);
  }

  /** Misses that every configuration can afford. */
  function Misses(config: Config): int {
    if SoftsOnlyConfig(config) then CLEVEL_MISSES * config.softs else MissBound(config)
  }

  /** The counters of a tuner that has stopped, whatever its configuration. */
  predicate Finished(config: Config, t: Tuner) {
    if SoftsOnlyConfig(config) then t.nhards == 0 && t.nsofts == config.softs && t.nwaitings == 0
    else CountersFinal(config, t)
  }

  /** Main result for repeat mode STOP, over every configuration, compression mode,
      hint and run: with softs and waits but no hard readapt behind a hint the tuner
      never stops; otherwise it has stopped once it has compressed `Misses` chunks
      more than it accepted, or than there are values above the first, and then its
      counters are final. */
  lemma StopsOrWaits(config: Config, context: CParams, ms: seq<Measurement>)
    requires config.repeat.RepeatStop? && Starts(config, context) && forall m | m in ms :: m.Valid()
    ensures Init(config, context).Safe()
    ensures var start, t := Init(config, context), Run(Init(config, context), ms);
            if WaitsForEver(config) then !t.state.Stop?
            else
              && (t.state.Stop? ==> Finished(config, t))
              && (|ms| >= Misses(config) + Accepted(start, ms) ==> t.state.Stop?)
              && (|ms| >= Misses(config) + |Above(start, ms)| ==> t.state.Stop?)
  {
    InitIsSafe(config, context);
    AcceptedBelowValues(Init(config, context), ms);
    hide Run, Accepted, Above, Init, Stuck, MissBound, CountersFinal;
    if SoftsOnlyConfig(config) {
      InitSoftsOnly(config, context);
      if WaitsForEver(config) {
        StuckForEver(Init(config, context), ms);
      } else {
        RoundEnds(Init(config, context), ms);
      }
    } else {
      EveryMode(config, context, ms);
    }
  }

  /** Special chunks are never accepted. */
  lemma {:induction false} SpecialsMiss(t: Tuner, n: nat) returns (ms: seq<Measurement>)
    requires t.Safe()
    ensures |ms| == n && (forall m | m in ms :: m.Valid()) && Accepted(t, ms) == 0
    decreases n
  {
    ms := [];
    if n > 0 {
      StepIsSafe(t, SPECIAL);
      var rest := SpecialsMiss(t.Step(SPECIAL), n - 1);
      ms := [SPECIAL] + rest;
      assert ms[1..] == rest;
      hide Tuner.Step;
    }
  }

  /** Some run stops exactly when the configuration does not wait for ever. */
  lemma StopsExactlyUnlessWaiting(config: Config, context: CParams)
    requires config.repeat.RepeatStop? && Starts(config, context)
    ensures Init(config, context).Safe()
    ensures (exists ms :: AllValid(ms) && Run(Init(config, context), ms).state.Stop?) <==> !WaitsForEver(config)
  {
    InitIsSafe(config, context);
    if WaitsForEver(config) {
      forall ms | AllValid(ms) ensures !Run(Init(config, context), ms).state.Stop? {
        StopsOrWaits(config, context, ms);
      }
    } else {
      hide Init, Run, Accepted, Above, Misses, Starts;
      var n := Misses(config);
      var ms := SpecialsMiss(Init(config, context), if n < 0 then 0 else n);
      assert AllValid(ms);
      StopsOrWaits(config, context, ms);
    }
  }
}
