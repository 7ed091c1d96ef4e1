/** The repeating modes: which configurations never stop, and what their
    counters do for ever (src/btune/iabtune.c). */
module BTuneRepeat {
  import opened BTuneSpec
  import opened BTuneRuns
  import opened BTuneAnyMode
  import opened BTuneHints

  /** What update_aux does while waiting. */
  lemma WaitingUpdate(t: Tuner, m: Measurement)
    requires t.Safe() && t.state.Waiting? && m.Valid()
    ensures var v := Measured(t, m).0;
            && v == t.(best := v.best, aux := v.aux, nwaitings := t.nwaitings + 1)
            && t.Step(m) == v.ProcessWaiting()
  {
    hide Tuner.ProcessWaiting, Tuner.Wins;
  }

  /** In a CODEC_FILTER phase only the position and the parameters change. */
  lemma CodecFilterUpdate(t: Tuner, m: Measurement)
    requires t.Safe() && t.state.CodecFilter? && m.Valid()
    ensures t.auxIndex / FILTER_SPLIT_LIMIT < |t.codecs|
    ensures var u := t.Step(m);
            && u == t.(best := u.best, aux := u.aux, auxIndex := u.auxIndex, state := u.state)
            && (u.state.CodecFilter? || u.state.Clevel?)
  {
    SafeIndex(t);
    hide Tuner.Wins;
  }

  // ---------------------------------------------------------------------
  // The schedule, for as many rounds as it goes on

  /** Where the counters stand while hard readapts still come. */
  predicate Cycling(t: Tuner) {
    var n, s, w := HardsDone(t), t.config.softs, t.config.waits;
    match t.state
    case CodecFilter =>
      t.readaptFrom.Hard? && n >= 0 && t.nsofts == Times(n, s) && t.nwaitings == Times(n, WaitsPerHard(s, w))
    case Clevel =>
      if t.readaptFrom.Hard? then
        n >= 0 && t.nsofts == Times(n, s) && t.nwaitings == Times(n, WaitsPerHard(s, w))
      else
        && t.readaptFrom.Soft? && s > 0 && 1 <= n
        && Times(n - 1, s) <= t.nsofts < Times(n, s)
        && t.nwaitings == Times(t.nsofts, w)
    case Waiting =>
      && t.readaptFrom.Wait? && w > 0 && 1 <= n
      && if s > 0 then
           && Times(n - 1, s) < t.nsofts <= Times(n, s)
           && Times(t.nsofts - 1, w) <= t.nwaitings < Times(t.nsofts, w)
         else
           t.nsofts == 0 && Times(n - 1, w) <= t.nwaitings < Times(n, w)
    case Stop => false
  }

  /** Repeat mode ALL with hard readapts to repeat. */
  predicate CyclesOn(c: Config) { c.repeat.RepeatAll? && Rounds(c) >= 1 }

  /** Softs for ever, once the hard readapts are over. */
  predicate SoftsOn(c: Config) {
    c.softs > 0 && Rounds(c) >= 0 && (c.repeat.RepeatSoft? || (c.repeat.RepeatAll? && Rounds(c) == 0))
  }

  /** Nothing but waits, once the only hard readapt is over. */
  predicate WaitsOn(c: Config) {
    c.repeat.RepeatAll? && Rounds(c) == 0 && c.softs == 0 && c.waits > 0 && !c.hint
  }

  /** Softs, and the waits after each, without a hard readapt to come. */
  predicate Softening(t: Tuner) {
    var h, s, w := Rounds(t.config), t.config.softs, t.config.waits;
    && HardsDone(t) == h + 1
    && match t.state
       case Clevel => t.readaptFrom.Soft? && t.nsofts >= Times(h, s) && t.nwaitings == Times(t.nsofts, w)
       case Waiting =>
         && t.readaptFrom.Wait? && w > 0 && t.nsofts > Times(h, s)
         && Times(t.nsofts - 1, w) <= t.nwaitings < Times(t.nsofts, w)
       case _ => false
  }

  /** What every reachable state keeps in a configuration that goes on for ever. */
  predicate GoesOn(t: Tuner) {
    t.Safe() &&
    if CyclesOn(t.config) then Cycling(t)
    else if SoftsOn(t.config) then
      if t.isRepeating then Softening(t) else Cycling(t) && HardsDone(t) <= Rounds(t.config)
    else
      && WaitsOn(t.config) && t.nsofts == 0
      && if HardsDone(t) == 0 then (t.state.CodecFilter? || t.state.Clevel?) && t.readaptFrom.Hard? && t.nwaitings == 0
         else HardsDone(t) == 1 && t.state.Waiting? && t.readaptFrom.Wait?
  }

  predicate Endless(c: Config) { CyclesOn(c) || SoftsOn(c) || WaitsOn(c) }

  // ---------------------------------------------------------------------
  // After each phase

  /** The part of `GoesOn` that process_waiting_state decides. */
  predicate GoesOnNext(t: Tuner) {
    if CyclesOn(t.config) then Cycling(t)
    else if SoftsOn(t.config) then
      if t.isRepeating then Softening(t) else Cycling(t) && HardsDone(t) <= Rounds(t.config)
    else
      WaitsOn(t.config) && t.nsofts == 0 && HardsDone(t) == 1 && t.state.Waiting? && t.readaptFrom.Wait?
  }

  lemma CyclesAfterHard(t: Tuner, z: Tuner)
    requires GoesOn(t) && CyclesOn(t.config) && t.state.Clevel? && t.readaptFrom.Hard?
    requires z == t.(best := z.best, aux := z.aux, auxIndex := 0, state := Waiting)
    ensures GoesOnNext(z.ProcessWaiting()) && z.ProcessWaiting().config == t.config
  {
    hide Times, Due, Tuner.HasEndedClevel, Tuner.Safe;
    var n, s, w := HardsDone(t), t.config.softs, t.config.waits;
    if t.nhards < t.config.hards { DueBelow(t.nhards + 1, t.config.hards); }
    TimesNext(n, s);
    TimesNext(n, w);
    TimesNext(n, 0);
    TimesNext(n + 1, 0);
    TimesAssoc(n, s, w);
  }

  lemma SoftsAfterHard(t: Tuner, z: Tuner)
    requires GoesOn(t) && SoftsOn(t.config) && t.state.Clevel? && t.readaptFrom.Hard?
    requires z == t.(best := z.best, aux := z.aux, auxIndex := 0, state := Waiting)
    ensures GoesOnNext(z.ProcessWaiting()) && z.ProcessWaiting().config == t.config
  {
    hide Times, Due, Tuner.HasEndedClevel, Tuner.Safe;
    var n, s, w := HardsDone(t), t.config.softs, t.config.waits;
    if t.nhards < t.config.hards { DueBelow(t.nhards + 1, t.config.hards); }
    TimesNext(n, s);
    TimesNext(n, w);
    TimesNext(n, 0);
    TimesNext(n + 1, 0);
    TimesAssoc(n, s, w);
  }

  lemma WaitsAfterHard(t: Tuner, z: Tuner)
    requires GoesOn(t) && WaitsOn(t.config) && t.state.Clevel? && t.readaptFrom.Hard?
    requires z == t.(best := z.best, aux := z.aux, auxIndex := 0, state := Waiting)
    ensures GoesOnNext(z.ProcessWaiting()) && z.ProcessWaiting().config == t.config
  {
    hide Times, Due, Tuner.HasEndedClevel, Tuner.Safe;
  }

  lemma NextAfterHard(t: Tuner, z: Tuner)
    requires GoesOn(t) && t.state.Clevel? && t.readaptFrom.Hard?
    requires z == t.(best := z.best, aux := z.aux, auxIndex := 0, state := Waiting)
    ensures GoesOnNext(z.ProcessWaiting()) && z.ProcessWaiting().config == t.config
  {
    hide GoesOnNext, Tuner.ProcessWaiting, Tuner.Safe;
    if CyclesOn(t.config) { CyclesAfterHard(t, z); }
    else if SoftsOn(t.config) { SoftsAfterHard(t, z); }
    else { WaitsAfterHard(t, z); }
  }

  lemma NextAfterSoft(t: Tuner, z: Tuner)
    requires GoesOn(t) && t.state.Clevel? && t.readaptFrom.Soft?
    requires z == t.(best := z.best, aux := z.aux, auxIndex := 0, state := Waiting)
    ensures GoesOnNext(z.ProcessWaiting()) && z.ProcessWaiting().config == t.config
  {
    hide Times, Due, Tuner.HasEndedClevel, Tuner.Safe;
    var n, s, w := HardsDone(t), t.config.softs, t.config.waits;
    if Cycling(t) { DueInRange(t.nsofts + 1, s, n); }
    TimesNext(t.nsofts, w);
    TimesNext(n, 0);
    TimesNext(s, 0);
    TimesNext(t.nsofts, 0);
  }

  lemma CyclesAfterWait(t: Tuner, z: Tuner)
    requires GoesOn(t) && Cycling(t) && !WaitsOn(t.config) && t.state.Waiting?
    requires z == t.(best := z.best, aux := z.aux, nwaitings := t.nwaitings + 1)
    ensures GoesOnNext(z.ProcessWaiting()) && z.ProcessWaiting().config == t.config
  {
    hide Times, Due, Tuner.HasEndedClevel, Tuner.Safe;
    var n, s, w := HardsDone(t), t.config.softs, t.config.waits;
    TimesNext(n, 0);
    TimesAssoc(n, s, w);
    if s > 0 {
      TimesPositive(n - 1, s);
      DueInRange(t.nsofts, s, n);
      DueInRange(z.nwaitings, w, t.nsofts);
      TimesPositive(t.nsofts - 1, w);
    } else {
      TimesPositive(n - 1, w);
      DueInRange(z.nwaitings, w, n);
    }
  }

  lemma SoftsAfterWait(t: Tuner, z: Tuner)
    requires GoesOn(t) && Softening(t) && !Cycling(t) && !CyclesOn(t.config) && SoftsOn(t.config) && t.state.Waiting?
    requires z == t.(best := z.best, aux := z.aux, nwaitings := t.nwaitings + 1)
    ensures GoesOnNext(z.ProcessWaiting()) && z.ProcessWaiting().config == t.config
  {
    hide Times, Due, Tuner.HasEndedClevel, Tuner.Safe;
    var s, w := t.config.softs, t.config.waits;
    TimesPositive(Rounds(t.config), s);
    DueInRange(z.nwaitings, w, t.nsofts);
    TimesPositive(t.nsofts - 1, w);
  }

  lemma WaitsAfterWait(t: Tuner, z: Tuner)
    requires GoesOn(t) && WaitsOn(t.config) && t.state.Waiting?
    requires z == t.(best := z.best, aux := z.aux, nwaitings := t.nwaitings + 1)
    ensures GoesOnNext(z.ProcessWaiting()) && z.ProcessWaiting().config == t.config
  {
    hide Times, Due, Tuner.HasEndedClevel, Tuner.Safe;
  }

  lemma NextAfterWait(t: Tuner, z: Tuner)
    requires GoesOn(t) && t.state.Waiting?
    requires z == t.(best := z.best, aux := z.aux, nwaitings := t.nwaitings + 1)
    ensures GoesOnNext(z.ProcessWaiting()) && z.ProcessWaiting().config == t.config
  {
    hide GoesOnNext, Tuner.ProcessWaiting, Tuner.Safe, Cycling, Softening;
    if WaitsOn(t.config) { WaitsAfterWait(t, z); }
    else if Cycling(t) { CyclesAfterWait(t, z); }
    else { SoftsAfterWait(t, z); }
  }

  lemma StepGoesOn(t: Tuner, m: Measurement)
    requires GoesOn(t) && m.Valid()
    ensures t.state.CodecFilter? ==> t.auxIndex / FILTER_SPLIT_LIMIT < |t.codecs|
    ensures GoesOn(t.Step(m)) && t.Step(m).config == t.config
  {
    StepIsSafe(t, m);
    StepKeepsConfig(t, m);
    match t.state
    case CodecFilter =>
      CodecFilterUpdate(t, m);
      hide Tuner.Step, Tuner.Wins, Tuner.Safe, Times;
    case Clevel =>
      ClevelUpdate(t, m);
      hide Tuner.Step, Tuner.Wins, Tuner.Safe, Times, Measured, Tuner.ProcessWaiting, Tuner.HasEndedClevel;
      var (v, improved) := Measured(t, m);
      if ClevelOver(v, improved) {
        var z := Turned(v, improved).(auxIndex := 0, state := Waiting);
        if t.readaptFrom.Hard? { NextAfterHard(t, z); } else { NextAfterSoft(t, z); }
      }
    case Waiting =>
      WaitingUpdate(t, m);
      hide Tuner.Step, Tuner.Wins, Tuner.Safe, Times, Measured, Tuner.ProcessWaiting;
      NextAfterWait(t, Measured(t, m).0);
  }

  lemma {:induction false} RunGoesOn(t: Tuner, ms: seq<Measurement>)
    requires GoesOn(t) && forall m | m in ms :: m.Valid()
    ensures t.Safe() && GoesOn(Run(t, ms)) && Run(t, ms).config == t.config && !Run(t, ms).state.Stop?
    decreases |ms|
  {
    if ms != [] {
      assert ms[0] in ms;
      StepGoesOn(t, ms[0]);
      hide Tuner.Step, GoesOn;
      GoesOnIsSafe(t);
      GoesOnIsSafe(t.Step(ms[0]));
      RunGoesOn(t.Step(ms[0]), ms[1..]);
    }
  }

  lemma GoesOnIsSafe(t: Tuner)
    requires GoesOn(t)
    ensures t.Safe() && !t.state.Stop?
  {}

  // ---------------------------------------------------------------------
  // From the start, over every configuration

  /** The configuration with the hard readapt that a missing hint adds. */
  function Started(config: Config): Config { config.(hards := config.hards + config.MinimumHards()) }

  lemma InitGoesOn(config: Config, context: CParams)
    requires Starts(config, context) && Endless(Started(config))
    ensures GoesOn(Init(config, context)) && Init(config, context).config == Started(config)
  {
    hide Config.Codecs, Times;
    InitIsSafe(config, context);
    TimesNext(0, config.softs);
    TimesNext(0, config.waits);
    TimesNext(0, WaitsPerHard(config.softs, config.waits));
    TimesNext(1, 0);
  }

  /** The configurations that go on for ever: something to repeat in the modes that
      repeat, and in repeat mode STOP the one of BTuneHints. */
  predicate RunsOn(config: Config) {
    if config.repeat.RepeatStop? then WaitsForEver(config) else Endless(Started(config))
  }

  lemma RepeatsOrStops(config: Config)
    requires !config.repeat.RepeatStop?
    ensures Endless(Started(config)) <==> !StopsAtLast(config, config.hards)
    ensures !Endless(Started(config)) ==> !SoftsOnlyConfig(config)
  {}

  /** Main result over every configuration and run.  Either the tuner never stops,
      and in the repeating modes its counters stay on the schedule for ever; or it
      has stopped once it has compressed `Misses` chunks more than it accepted, or
      than there are values above the first, and then its counters are final. */
  lemma EveryConfiguration(config: Config, context: CParams, ms: seq<Measurement>)
    requires Starts(config, context) && forall m | m in ms :: m.Valid()
    ensures Init(config, context).Safe()
    ensures var start, t := Init(config, context), Run(Init(config, context), ms);
            if RunsOn(config) then !t.state.Stop? && (!config.repeat.RepeatStop? ==> GoesOn(t))
            else
              && (t.state.Stop? ==> Finished(config, t))
              && (|ms| >= Misses(config) + Accepted(start, ms) ==> t.state.Stop?)
              && (|ms| >= Misses(config) + |Above(start, ms)| ==> t.state.Stop?)
  {
    InitIsSafe(config, context);
    hide Run, Accepted, Above, Init, MissBound, CountersFinal, GoesOn, Endless;
    if config.repeat.RepeatStop? {
      StopsOrWaits(config, context, ms);
    } else {
      RepeatsOrStops(config);
      if Endless(Started(config)) {
        InitGoesOn(config, context);
        RunGoesOn(Init(config, context), ms);
      } else {
        EveryMode(config, context, ms);
        FewValuesStop(config, context, ms);
      }
    }
  }

  /** With softs to repeat after the hard readapts there is no further hard readapt:
      at most h + 1 of them without a hint, at most h with one. */
  lemma HardsAreOver(config: Config, context: CParams, ms: seq<Measurement>)
    requires Starts(config, context) && SoftsOn(Started(config)) && forall m | m in ms :: m.Valid()
    ensures Init(config, context).Safe()
    ensures Run(Init(config, context), ms).nhards <= config.hards + config.MinimumHards()
  {
    InitGoesOn(config, context);
    RunGoesOn(Init(config, context), ms);
    hide Run, Tuner.Safe, Init, Times;
  }
}
