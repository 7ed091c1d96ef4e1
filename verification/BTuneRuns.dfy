/** Whole runs of the tuner under an adversary that picks every measurement. */
module BTuneRuns {
  import opened Arith
  import opened BTuneSpec

  function Run(t: Tuner, ms: seq<Measurement>): Tuner
    requires t.Safe() && forall m | m in ms :: m.Valid()
    decreases |ms|
  {
    if ms == [] then t else
      StepIsSafe(t, ms[0]);
      Run(t.Step(ms[0]), ms[1..])
  }

  /** Every reachable state is safe: levels in 1..9, codec list read in bounds. */
  lemma {:induction false} RunIsSafe(t: Tuner, ms: seq<Measurement>)
    requires t.Safe() && forall m | m in ms :: m.Valid()
    ensures Run(t, ms).Safe()
    decreases |ms|
  {
    if ms != [] {
      StepIsSafe(t, ms[0]);
      RunIsSafe(t.Step(ms[0]), ms[1..]);
    }
  }

  // ---------------------------------------------------------------------
  // The schedule: h + 1 hard readapts, s softs after each but the last, w waits
  // after each soft (after each hard when there are no softs)

  function Times(a: int, b: int): int { a * b }

  lemma TimesNext(a: int, b: int)
    ensures Times(a + 1, b) == Times(a, b) + b && Times(0, b) == 0 && Times(a, 0) == 0
  {}

  lemma TimesAssoc(a: int, b: int, c: int)
    ensures Times(Times(a, b), c) == Times(a, Times(b, c))
  {}

  lemma TimesMono(a: int, a': int, b: int)
    requires a <= a' && b >= 0
    ensures Times(a, b) <= Times(a', b)
  {
    assert (a' - a) * b >= 0;
  }

  /** Counting up to the next multiple of d. */
  lemma DueInRange(n: nat, d: nat, k: int)
    requires d > 0 && Times(k - 1, d) < n <= Times(k, d)
    ensures Due(n, d) <==> n == Times(k, d)
  {
    TimesNext(k - 1, d);
    if n < Times(k, d) {
      QuotientUnique(n, d, k - 1, n - Times(k - 1, d));
    } else {
      QuotientUnique(n, d, k, 0);
    }
  }

  /** Waits per hard readapt. */
  function WaitsPerHard(s: nat, w: nat): int { if s == 0 then w else Times(s, w) }

  /** The most compressions a CLEVEL phase takes when no level is capped. */
  const CLEVEL_STEPS := 11

  /** The most compressions in a CLEVEL phase that bring no improvement. */
  const CLEVEL_MISSES := 2

  /** Rounds of softs and a hard readapt, after the first hard readapt, which a
      hint replaces. */
  function Rounds(c: Config): int { c.hards - c.MinimumHards() }

  /** Hard readapts behind us, the one that a hint replaces included. */
  function HardsDone(t: Tuner): int { t.nhards + 1 - t.config.MinimumHards() }

  /** Nothing is repeated after the last hard readapt: repeat mode STOP, or nothing
      that the mode could repeat. */
  predicate StopsAtLast(c: Config, rounds: int) {
    match c.repeat
    case RepeatStop => true
    case RepeatSoft => c.softs == 0
    case RepeatAll => c.softs == 0 && rounds == 0 && (c.waits == 0 || c.hint)
  }

  predicate Stopping(c: Config) { StopsAtLast(c, Rounds(c)) && Rounds(c) >= 0 }

  /** Where the counters stand in each state. */
  ghost predicate Counts(t: Tuner) {
    var h, n := Rounds(t.config), HardsDone(t);
    var s, w := t.config.softs, t.config.waits;
    var W := WaitsPerHard(s, w);
    match t.state
    case CodecFilter =>
      t.readaptFrom.Hard? && n <= h && t.nsofts == Times(n, s) && t.nwaitings == Times(n, W)
    case Clevel =>
      if t.readaptFrom.Hard? then
        n <= h && t.nsofts == Times(n, s) && t.nwaitings == Times(n, W)
      else
        && t.readaptFrom.Soft? && s > 0 && 1 <= n <= h
        && Times(n - 1, s) <= t.nsofts < Times(n, s)
        && t.nwaitings == Times(t.nsofts, w)
    case Waiting =>
      && t.readaptFrom.Wait? && w > 0 && 1 <= n <= h
      && if s > 0 then
           && Times(n - 1, s) < t.nsofts <= Times(n, s)
           && Times(t.nsofts - 1, w) <= t.nwaitings < Times(t.nsofts, w)
         else
           t.nsofts == 0 && Times(n - 1, w) <= t.nwaitings < Times(n, w)
    case Stop =>
      n == h + 1 && t.nsofts == Times(h, s) && t.nwaitings == Times(h, W)
  }

  /** What every reachable state keeps when nothing is repeated, in every compression mode. */
  ghost predicate Scheduled(t: Tuner) {
    && t.Safe()
    && Stopping(t.config)
    && Counts(t)
    && (!t.state.Stop? ==> !t.isRepeating)
  }

  /** An upper bound on the compressions still to come, when a CLEVEL phase takes
      at most `phase` of them and `rest` of those are left in the present one. */
  ghost function Left(t: Tuner, phase: nat, rest: int): int {
    var n := Rounds(t.config) - HardsDone(t);
    match t.state
    case CodecFilter =>
      (FILTER_SPLIT_LIMIT * |t.codecs| - t.auxIndex) + phase + Hards(HardSteps(t, phase), n) + Later(t, phase)
    case Clevel =>
      if t.readaptFrom.Hard? then rest + Hards(HardSteps(t, phase), n) + Later(t, phase)
      else rest - phase + Hards(HardSteps(t, phase), n + 1) + Later(t, phase)
    case Waiting => Hards(HardSteps(t, phase), n + 1) + Later(t, phase)
    case Stop => 0
  }

  /** The most a hard readapt can take. */
  function HardSteps(t: Tuner, phase: nat): nat { FILTER_SPLIT_LIMIT * |t.codecs| + phase }

  function Hards(cost: nat, n: int): int { if n > 0 then Times(n, cost) else 0 }

  /** The soft readapts and waits still to come. */
  ghost function Later(t: Tuner, phase: nat): int {
    phase * (Times(Rounds(t.config), t.config.softs) - t.nsofts) +
    (Times(Rounds(t.config), WaitsPerHard(t.config.softs, t.config.waits)) - t.nwaitings)
  }

  // ---------------------------------------------------------------------
  // What comes after each phase

  ghost predicate Common(t: Tuner) {
    && Idle(t)
    && Stopping(t.config)
    && !t.isRepeating
  }

  lemma HardsNext(cost: nat, n: nat)
    ensures Hards(cost, n + 1) == Hards(cost, n) + cost
  {
    TimesNext(n, cost);
  }

  /** The end of a hard readapt: stop after the last, else softs, waits or the next. */
  lemma AfterHardPhase(t: Tuner, phase: nat)
    requires Common(t) && t.state.Waiting? && t.readaptFrom.Hard? && HardsDone(t) <= Rounds(t.config)
    requires t.nsofts == Times(HardsDone(t), t.config.softs)
    requires t.nwaitings == Times(HardsDone(t), WaitsPerHard(t.config.softs, t.config.waits))
    ensures Scheduled(t.ProcessWaiting())
    ensures var u := t.ProcessWaiting();
            || u.state.Stop?
            || Left(u, phase, phase) <= Hards(HardSteps(t, phase), Rounds(t.config) - HardsDone(t)) + Later(t, phase)
  {
    hide Times, Due, Hards;
    var n, h, s, w := HardsDone(t), Rounds(t.config), t.config.softs, t.config.waits;
    DueBelow(t.nhards + 1, t.config.hards);
    TimesNext(n, s);
    TimesNext(n, w);
    TimesNext(n, 0);
    TimesNext(n + 1, 0);
    TimesAssoc(n, s, w);
    if n < h { HardsNext(HardSteps(t, phase), h - 1 - n); }
  }

  lemma DueBelow(n: nat, d: nat)
    requires 0 < n <= d
    ensures Due(n, d) <==> n == d
  {
    if n < d { SmallMod(n, d); } else { QuotientUnique(n, d, 1, 0); }
  }

  /** The end of a soft readapt. */
  lemma AfterSoftPhase(t: Tuner, phase: nat)
    requires Common(t) && t.state.Waiting? && t.readaptFrom.Soft? && t.config.softs > 0
    requires 1 <= HardsDone(t) <= Rounds(t.config)
    requires Times(HardsDone(t) - 1, t.config.softs) <= t.nsofts < Times(HardsDone(t), t.config.softs)
    requires t.nwaitings == Times(t.nsofts, t.config.waits)
    ensures Scheduled(t.ProcessWaiting())
    ensures Left(t.ProcessWaiting(), phase, phase) <=
            Hards(HardSteps(t, phase), Rounds(t.config) + 1 - HardsDone(t)) + Later(t, phase) - phase
  {
    hide Times, Due, Hards;
    var n, h, s, w := HardsDone(t), Rounds(t.config), t.config.softs, t.config.waits;
    DueInRange(t.nsofts + 1, s, n);
    TimesNext(t.nsofts, w);
    TimesNext(n, 0);
    TimesNext(s, 0);
    TimesNext(t.nsofts, 0);
    HardsNext(HardSteps(t, phase), h - n);
  }

  /** One more wait. */
  lemma AfterOneWait(t: Tuner, phase: nat)
    requires Common(t) && t.state.Waiting? && t.readaptFrom.Wait? && t.config.waits > 0
    requires 1 <= HardsDone(t) <= Rounds(t.config)
    requires if t.config.softs > 0
             then Times(HardsDone(t) - 1, t.config.softs) < t.nsofts <= Times(HardsDone(t), t.config.softs) &&
                  Times(t.nsofts - 1, t.config.waits) < t.nwaitings <= Times(t.nsofts, t.config.waits)
             else t.nsofts == 0 &&
                  Times(HardsDone(t) - 1, t.config.waits) < t.nwaitings <= Times(HardsDone(t), t.config.waits)
    ensures Scheduled(t.ProcessWaiting())
    ensures Left(t.ProcessWaiting(), phase, phase) <=
            Hards(HardSteps(t, phase), Rounds(t.config) + 1 - HardsDone(t)) + Later(t, phase)
  {
    hide Times, Due, Hards;
    var n, h, s, w := HardsDone(t), Rounds(t.config), t.config.softs, t.config.waits;
    TimesNext(n, 0);
    TimesAssoc(n, s, w);
    HardsNext(HardSteps(t, phase), h - n);
    if s > 0 {
      TimesPositive(n - 1, s);
      TimesPositive(t.nsofts - 1, w);
      DueInRange(t.nsofts, s, n);
      DueInRange(t.nwaitings, w, t.nsofts);
    } else {
      TimesPositive(n - 1, w);
      DueInRange(t.nwaitings, w, n);
    }
  }

  lemma TimesPositive(a: nat, b: nat)
    ensures Times(a, b) >= 0
  {}

  // ---------------------------------------------------------------------
  // One step, in every compression mode

  /** The tuner right before update_aux, and the verdict. */
  function Measured(t: Tuner, m: Measurement): (r: (Tuner, bool))
    requires t.Safe() && m.Valid()
  {
    NextIsChosen(t);
    var u := t.NextCparams();
    var v := u.(aux := u.aux.(score := m.score, cratio := m.cratio));
    (if v.Wins(m) then v.(best := v.aux) else v, v.Wins(m))
  }

  lemma StepIsUpdateAux(t: Tuner, m: Measurement)
    requires t.Safe() && m.Valid() && !t.state.Stop?
    ensures t.state.CodecFilter? ==> t.auxIndex / FILTER_SPLIT_LIMIT < |t.codecs|
    ensures t.Step(m) == Measured(t, m).0.UpdateAux(Measured(t, m).1)
  {
    hide Tuner.UpdateAux, Tuner.Wins;
    NextIsChosen(t);
  }

  lemma CodecFilterStep(t: Tuner, m: Measurement, phase: nat)
    requires Scheduled(t) && m.Valid() && t.state.CodecFilter?
    ensures var (v, improved) := Measured(t, m);
            var u := v.UpdateAux(improved);
            Scheduled(u) && (!u.state.Clevel? || u.auxIndex == 0) && Left(u, phase, phase) < Left(t, phase, phase)
  {
    hide Times, Hards, Due, Tuner.ProcessWaiting, Tuner.Wins;
    SafeIndex(t);
    var k, nc := t.auxIndex, |t.codecs|;
    if (k + 1) / FILTER_SPLIT_LIMIT == nc {
      assert k + 1 == FILTER_SPLIT_LIMIT * nc;
    }
  }

  /** Whether a CLEVEL phase is over after this measurement. */
  predicate ClevelOver(v: Tuner, improved: bool) {
    Turned(v, improved).HasEndedClevel() || (!improved && v.auxIndex != 1)
  }

  /** A first step that does not improve turns the direction round. */
  function Turned(v: Tuner, improved: bool): Tuner {
    if !improved && v.auxIndex == 1 then v.(best := v.best.(increasing := !v.best.increasing)) else v
  }

  /** What update_aux does to a CLEVEL phase. */
  lemma ClevelUpdate(t: Tuner, m: Measurement)
    requires t.Safe() && t.state.Clevel? && m.Valid()
    ensures var (v, improved) := Measured(t, m);
            && v == t.(best := v.best, aux := v.aux, auxIndex := t.auxIndex + 1)
            && improved == t.Wins(m)
            && t.Step(m) == if ClevelOver(v, improved)
                            then Turned(v, improved).(auxIndex := 0, state := Waiting).ProcessWaiting()
                            else Turned(v, improved)
  {
    hide Tuner.ProcessWaiting, Improved;
  }

  lemma ClevelGoesOn(t: Tuner, m: Measurement, phase: nat, rest: int, rest': int)
    requires Scheduled(t) && m.Valid() && t.state.Clevel?
    requires var (v, improved) := Measured(t, m); !ClevelOver(v, improved)
    ensures var (v, improved) := Measured(t, m);
            var u := v.UpdateAux(improved);
            Scheduled(u) && u == Turned(v, improved) && Left(u, phase, rest') - rest' == Left(t, phase, rest) - rest
  {
    hide Times, Hards, Due, Tuner.ProcessWaiting, Tuner.Wins;
  }

  lemma ClevelEnds(t: Tuner, m: Measurement, phase: nat, rest: int)
    requires Scheduled(t) && m.Valid() && t.state.Clevel? && rest > 0
    requires var (v, improved) := Measured(t, m); ClevelOver(v, improved)
    ensures var (v, improved) := Measured(t, m);
            var u := v.UpdateAux(improved);
            Scheduled(u) && u == Turned(v, improved).(auxIndex := 0, state := Waiting).ProcessWaiting() &&
            Left(u, phase, phase) < Left(t, phase, rest)
  {
    hide Times, Hards, Due, Tuner.ProcessWaiting, Tuner.Wins;
    var (v, improved) := Measured(t, m);
    var z := Turned(v, improved).(auxIndex := 0, state := Waiting);
    assert v.UpdateAux(improved) == z.ProcessWaiting();
    LeftPositive(t, phase, rest);
    if t.readaptFrom.Hard? {
      AfterHardPhase(z, phase);
    } else {
      AfterSoftPhase(z, phase);
    }
  }

  lemma WaitingStep(t: Tuner, m: Measurement, phase: nat)
    requires Scheduled(t) && m.Valid() && t.state.Waiting?
    ensures var (v, improved) := Measured(t, m);
            var u := v.UpdateAux(improved);
            Scheduled(u) && u.auxIndex == 0 && Left(u, phase, phase) < Left(t, phase, phase)
  {
    hide Times, Hards, Due, Tuner.ProcessWaiting, Tuner.Wins;
    var (v, improved) := Measured(t, m);
    AfterOneWait(v, phase);
    ProcessKeepsConfig(v);
  }

  lemma LeftPositive(t: Tuner, phase: nat, rest: int)
    requires Scheduled(t) && !t.state.Stop? && rest > 0
    ensures Left(t, phase, rest) > 0
  {
    var n := Rounds(t.config) - HardsDone(t);
    LaterPositive(t, phase);
    HardsPositive(HardSteps(t, phase), n);
    hide Times, Hards, Later;
    HardsNext(HardSteps(t, phase), n);
  }

  lemma LaterPositive(t: Tuner, phase: nat)
    requires Scheduled(t) && !t.state.Stop?
    ensures Later(t, phase) >= 0
  {
    hide Times, Tuner.Safe;
    var h, n := Rounds(t.config), HardsDone(t);
    var s, w := t.config.softs, t.config.waits;
    TimesPositive(s, w);
    TimesPositive(h, s);
    TimesMono(n, h, s);
    TimesMono(n, h, WaitsPerHard(s, w));
    TimesAssoc(n, s, w);
    if t.nsofts <= Times(n, s) { TimesMono(t.nsofts, Times(n, s), w); }
    ProductPositive(phase, Times(h, s) - t.nsofts);
  }

  lemma ProductPositive(a: int, b: int)
    requires a >= 0 && b >= 0
    ensures a * b >= 0
  {}

  lemma HardsPositive(cost: nat, n: int)
    ensures Hards(cost, n) >= 0
  {
    if n > 0 { TimesPositive(n, cost); }
  }

  lemma ScheduledIsSafe(t: Tuner)
    requires Scheduled(t)
    ensures t.Safe()
  {}

  lemma ProcessKeepsConfig(t: Tuner)
    ensures var u := t.ProcessWaiting();
            u.config == t.config && u.codecs == t.codecs && u.best.codec == t.best.codec && u.auxIndex == t.auxIndex
  {
    hide Due, Tuner.HasEndedClevel;
    match t.readaptFrom
    case Hard =>
    case Soft =>
    case Wait =>
  }

  lemma UpdateAuxKeepsConfig(t: Tuner, improved: bool)
    ensures t.UpdateAux(improved).config == t.config && t.UpdateAux(improved).codecs == t.codecs
    ensures t.UpdateAux(improved).best.codec == t.best.codec
  {
    hide Tuner.ProcessWaiting, Tuner.HasEndedClevel;
    forall u: Tuner ensures u.ProcessWaiting().config == u.config && u.ProcessWaiting().codecs == u.codecs &&
                            u.ProcessWaiting().best.codec == u.best.codec {
      ProcessKeepsConfig(u);
    }
  }

  lemma StepKeepsConfig(t: Tuner, m: Measurement)
    requires t.Safe() && m.Valid()
    ensures t.state.CodecFilter? ==> t.auxIndex / FILTER_SPLIT_LIMIT < |t.codecs|
    ensures t.Step(m).config == t.config && t.Step(m).codecs == t.codecs
  {
    hide Tuner.Wins, Tuner.UpdateAux;
    NextIsChosen(t);
    if !t.state.Stop? {
      UpdateAuxKeepsConfig(Measured(t, m).0, Measured(t, m).1);
    }
  }

  /** A stopped tuner stays as it is. */
  lemma StoppedStays(t: Tuner, m: Measurement)
    requires t.Safe() && m.Valid() && t.state.Stop?
    ensures Scheduled(t) ==> Scheduled(t.Step(m))
    ensures t.Step(m) == t.(aux := t.CapClevel(t.best))
  {}

  /** Misses left in the present CLEVEL phase. */
  function MissesLeft(t: Tuner): int { if t.auxIndex == 0 then CLEVEL_MISSES else 1 }

  /** In every mode a compression keeps the schedule, and one that brings no
      improvement brings the stop nearer. */
  lemma ScheduledStep(t: Tuner, m: Measurement)
    requires Scheduled(t) && m.Valid()
    ensures t.state.CodecFilter? ==> t.auxIndex / FILTER_SPLIT_LIMIT < |t.codecs|
    ensures Scheduled(t.Step(m))
    ensures Left(t.Step(m), CLEVEL_MISSES, MissesLeft(t.Step(m))) <= Left(t, CLEVEL_MISSES, MissesLeft(t))
    ensures !t.state.Stop? && !t.Wins(m) ==>
              Left(t.Step(m), CLEVEL_MISSES, MissesLeft(t.Step(m))) < Left(t, CLEVEL_MISSES, MissesLeft(t))
  {
    ScheduledIsSafe(t);
    if t.state.Stop? {
      StoppedStays(t, m);
    } else {
      StepIsUpdateAux(t, m);
      ScheduledUpdate(t, m);
      assert Measured(t, m).1 == t.Wins(m) by { SameVerdict(t, m); }
    }
  }

  lemma SameVerdict(t: Tuner, m: Measurement)
    requires t.Safe() && m.Valid()
    ensures Measured(t, m).1 == t.Wins(m)
  {
    hide Improved;
    NextIsChosen(t);
  }

  /** The same step, with its parts in view. */
  lemma ScheduledUpdate(t: Tuner, m: Measurement)
    requires Scheduled(t) && m.Valid() && !t.state.Stop?
    ensures var (v, improved) := Measured(t, m);
            var u := v.UpdateAux(improved);
            var (before, after) := (Left(t, CLEVEL_MISSES, MissesLeft(t)), Left(u, CLEVEL_MISSES, MissesLeft(u)));
            Scheduled(u) && after <= before && (!improved ==> after < before)
  {
    hide Scheduled, Left, Measured, Tuner.UpdateAux, Tuner.ProcessWaiting, Tuner.HasEndedClevel;
    ScheduledIsSafe(t);
    var (v, improved) := Measured(t, m);
    var u := v.UpdateAux(improved);
    FreshLeft(t, CLEVEL_MISSES, MissesLeft(t));
    FreshLeft(u, CLEVEL_MISSES, MissesLeft(u));
    match t.state
    case CodecFilter => CodecFilterStep(t, m, CLEVEL_MISSES);
    case Clevel =>
      if ClevelOver(v, improved) {
        ClevelEnds(t, m, CLEVEL_MISSES, MissesLeft(t));
        ProcessKeepsConfig(Turned(v, improved).(auxIndex := 0, state := Waiting));
      } else {
        ClevelGoesOn(t, m, CLEVEL_MISSES, MissesLeft(t), 1);
        ClevelCounts(t, m);
      }
    case Waiting => WaitingStep(t, m, CLEVEL_MISSES);
  }

  /** Outside a CLEVEL phase that has begun, only whole phases are left. */
  lemma FreshLeft(t: Tuner, phase: nat, rest: int)
    requires t.state.Clevel? && t.auxIndex == 0 ==> rest == phase
    ensures !t.state.Clevel? || t.auxIndex == 0 ==> Left(t, phase, rest) == Left(t, phase, phase)
  {}

  lemma ClevelCounts(t: Tuner, m: Measurement)
    requires t.Safe() && m.Valid() && t.state.Clevel?
    ensures Measured(t, m).0.auxIndex == t.auxIndex + 1
  {
    hide Tuner.Wins;
  }

  // ---------------------------------------------------------------------
  // One step when no level is capped

  predicate FastCodec(c: Codec) { c != ZSTD && c != ZLIB }

  /** Outside HCR no level is capped, so a CLEVEL phase always moves. */
  ghost predicate Fast(t: Tuner) {
    && !t.config.comp.CompHCR?
    && FastCodec(t.best.codec)
    && (forall c | c in t.codecs :: FastCodec(c))
    && (t.state.Clevel? && t.auxIndex > 0 ==> !t.HasEndedClevel())
  }

  ghost predicate OnSchedule(t: Tuner) { Scheduled(t) && Fast(t) }

  /** How far the level is from its end in the current direction. */
  function Distance(t: Tuner): int {
    if t.best.increasing then MAX_CLEVEL - t.best.clevel else t.best.clevel
  }

  /** Compressions left in the present CLEVEL phase. */
  function LevelsLeft(t: Tuner): int { if t.auxIndex == 0 then CLEVEL_STEPS else 1 + Distance(t) }

  /** Compressions left before the stop. */
  ghost function StepsLeft(t: Tuner): int { Left(t, CLEVEL_STEPS, LevelsLeft(t)) }

  lemma FastCodecs(t: Tuner, m: Measurement)
    requires OnSchedule(t) && m.Valid() && !t.state.Stop?
    ensures var (v, improved) := Measured(t, m); FastCodec(v.best.codec) && v.codecs == t.codecs && v.config == t.config
  {
    hide Counts, Tuner.Wins;
    if t.state.CodecFilter? {
      SafeIndex(t);
      assert t.codecs[t.auxIndex / FILTER_SPLIT_LIMIT] in t.codecs;
    }
  }

  /** A level that moved without ending the phase is nearer to its end. */
  lemma LevelMoves(t: Tuner, m: Measurement)
    requires OnSchedule(t) && m.Valid() && t.state.Clevel?
    requires var (v, improved) := Measured(t, m); !ClevelOver(v, improved)
    ensures var (v, improved) := Measured(t, m);
            var u := Turned(v, improved);
            0 < LevelsLeft(u) < LevelsLeft(t) && u.auxIndex > 0 && !u.HasEndedClevel()
  {
    hide Counts, Tuner.Wins;
  }

  /** One compression outside HCR keeps the schedule and brings the stop nearer. */
  lemma StepOnSchedule(t: Tuner, m: Measurement)
    requires OnSchedule(t) && m.Valid() && !t.state.Stop?
    ensures t.state.CodecFilter? ==> t.auxIndex / FILTER_SPLIT_LIMIT < |t.codecs|
    ensures OnSchedule(t.Step(m)) && StepsLeft(t.Step(m)) < StepsLeft(t)
    ensures t.Step(m).config == t.config
  {
    hide Scheduled, Left, Measured, FastCodec, Tuner.UpdateAux, Tuner.ProcessWaiting, Tuner.HasEndedClevel, Tuner.Step;
    ScheduledIsSafe(t);
    StepIsUpdateAux(t, m);
    StepKeepsConfig(t, m);
    FastCodecs(t, m);
    var (v, improved) := Measured(t, m);
    var u := v.UpdateAux(improved);
    UpdateAuxKeepsConfig(v, improved);
    FreshLeft(t, CLEVEL_STEPS, LevelsLeft(t));
    FreshLeft(u, CLEVEL_STEPS, LevelsLeft(u));
    match t.state
    case CodecFilter => CodecFilterStep(t, m, CLEVEL_STEPS);
    case Clevel =>
      if ClevelOver(v, improved) {
        LevelsPositive(t);
        ClevelEnds(t, m, CLEVEL_STEPS, LevelsLeft(t));
        ProcessKeepsConfig(Turned(v, improved).(auxIndex := 0, state := Waiting));
      } else {
        LevelMoves(t, m);
        ClevelGoesOn(t, m, CLEVEL_STEPS, LevelsLeft(t), LevelsLeft(u));
      }
    case Waiting => WaitingStep(t, m, CLEVEL_STEPS);
  }

  lemma LevelsPositive(t: Tuner)
    requires Scheduled(t)
    ensures LevelsLeft(t) > 0
  {}

  lemma {:induction false} RunFinishes(t: Tuner, ms: seq<Measurement>)
    requires OnSchedule(t) && (forall m | m in ms :: m.Valid()) && |ms| >= StepsLeft(t)
    ensures t.Safe() && OnSchedule(Run(t, ms)) && Run(t, ms).state.Stop? && Run(t, ms).config == t.config
    decreases |ms|
  {
    ScheduledIsSafe(t);
    LevelsPositive(t);
    if !t.state.Stop? { LeftPositive(t, CLEVEL_STEPS, LevelsLeft(t)); }
    if ms != [] {
      assert ms[0] in ms;
      if t.state.Stop? {
        StoppedStays(t, ms[0]);
      } else {
        StepOnSchedule(t, ms[0]);
      }
      hide Scheduled, Tuner.Step;
      RunFinishes(t.Step(ms[0]), ms[1..]);
    }
  }

  /** The longest schedule whose CLEVEL phases take `phase` compressions each. */
  function ScheduleLength(config: Config, phase: nat): int {
    Times(config.hards + 1, FILTER_SPLIT_LIMIT * |config.Codecs()| + phase) +
    phase * Times(config.hards, config.softs) +
    Times(config.hards, WaitsPerHard(config.softs, config.waits))
  }

  /** No more compressions than this are ever needed outside HCR. */
  function StepBound(config: Config): int { ScheduleLength(config, CLEVEL_STEPS) }

  lemma InitScheduled(config: Config, context: CParams, phase: nat)
    requires !config.hint && StopsAtLast(config, config.hards) && |config.Codecs()| > 0
    ensures Scheduled(Init(config, context)) && Init(config, context).auxIndex == 0
    ensures Left(Init(config, context), phase, phase) == ScheduleLength(config, phase)
    ensures Init(config, context).config == config.(hards := config.hards + 1)
  {
    hide Times;
    InitIsSafe(config, context);
    TimesNext(0, config.softs);
    TimesNext(0, WaitsPerHard(config.softs, config.waits));
    HardsNext(HardSteps(Init(config, context), phase), config.hards);
    TimesNext(config.hards, HardSteps(Init(config, context), phase));
  }

  lemma InitOnSchedule(config: Config, context: CParams)
    requires !config.hint && StopsAtLast(config, config.hards) && !config.comp.CompHCR?
    ensures OnSchedule(Init(config, context)) && StepsLeft(Init(config, context)) == StepBound(config)
    ensures Init(config, context).config == config.(hards := config.hards + 1)
  {
    InitScheduled(config, context, CLEVEL_STEPS);
    hide Scheduled, Left, ScheduleLength;
  }

  /** The counters of a tuner that has stopped. */
  predicate CountersFinal(config: Config, t: Tuner) {
    && t.nhards == config.hards + config.MinimumHards()
    && t.nsofts == config.softs * config.hards
    && t.nwaitings == (if config.softs == 0 then config.waits else config.waits * config.softs) * config.hards
  }

  /** Main result: with h hards, s softs and w waits configured, whatever is
      measured, the tuner has stopped after `StepBound` compressions at the
      latest, after exactly h + 1 hard readapts, s * h soft readapts and
      w * s * h waits (w * h without softs), and it stays stopped. */
  lemma WholeRun(config: Config, context: CParams, ms: seq<Measurement>)
    requires !config.hint && StopsAtLast(config, config.hards) && !config.comp.CompHCR?
    requires forall m | m in ms :: m.Valid()
    requires |ms| >= StepBound(config)
    ensures Init(config, context).Safe()
    ensures var t := Run(Init(config, context), ms); t.state.Stop? && CountersFinal(config, t)
  {
    hide Times, Run, Left;
    InitOnSchedule(config, context);
    RunFinishes(Init(config, context), ms);
    StoppedCounters(config, Run(Init(config, context), ms));
  }

  lemma StoppedCounters(config: Config, t: Tuner)
    requires Scheduled(t) && t.state.Stop? && t.config == config.(hards := config.hards + config.MinimumHards())
    ensures CountersFinal(config, t)
  {
    hide Times;
    FinalCounts(config.hards, config.softs, config.waits);
  }

  lemma FinalCounts(h: nat, s: nat, w: nat)
    ensures Times(h, s) == s * h
    ensures Times(h, WaitsPerHard(s, w)) == (if s == 0 then w else w * s) * h
  {
    assert s * w == w * s;
  }

  // ---------------------------------------------------------------------
  // The codec phase

  /** Every (codec, filter, split) combination has exactly one position in a
      CODEC_FILTER phase; for BLOSCLZ the split is forced. */
  lemma EachCombinationOnce(t: Tuner, i: nat, filter: nat, split: nat, k: nat)
    requires i < |t.codecs| && filter < 3 && 1 <= split <= 2
    requires k < FILTER_SPLIT_LIMIT * |t.codecs|
    ensures k / FILTER_SPLIT_LIMIT < |t.codecs|
    ensures (k / FILTER_SPLIT_LIMIT == i && k % 3 == filter && (k % FILTER_SPLIT_LIMIT) / 3 + 1 == split) <==>
            k == FILTER_SPLIT_LIMIT * i + 3 * (split - 1) + filter
    ensures k == FILTER_SPLIT_LIMIT * i + 3 * (split - 1) + filter ==>
            t.Combination(k) == (t.codecs[i], filter, if t.codecs[i] == BLOSCLZ then ALWAYS_SPLIT else split)
  {
    DivBound(k, |t.codecs|, FILTER_SPLIT_LIMIT);
    if k == FILTER_SPLIT_LIMIT * i + 3 * (split - 1) + filter {
      Digits(k, i, split - 1, filter);
    } else {
      var q, r := k / FILTER_SPLIT_LIMIT, k % FILTER_SPLIT_LIMIT;
      DivModParts(k, FILTER_SPLIT_LIMIT);
      DivModParts(r, 3);
      Digits(k, q, r / 3, r % 3);
    }
  }

  /** Codec, split and filter digits of a position. */
  lemma Digits(k: nat, q: nat, s: nat, f: nat)
    requires k == FILTER_SPLIT_LIMIT * q + 3 * s + f && s < 2 && f < 3
    ensures k / FILTER_SPLIT_LIMIT == q && k % FILTER_SPLIT_LIMIT == 3 * s + f
    ensures k % 3 == f && (k % FILTER_SPLIT_LIMIT) / 3 == s
  {
    QuotientUnique(k, FILTER_SPLIT_LIMIT, q, 3 * s + f);
    QuotientUnique(k, 3, 2 * q + s, f);
    QuotientUnique(3 * s + f, 3, s, f);
  }

  /** A CODEC_FILTER phase lasts one step per combination: position by position,
      and then it is over. */
  lemma {:induction false} CodecPhase(t: Tuner, ms: seq<Measurement>)
    requires t.Safe() && t.state.CodecFilter? && forall m | m in ms :: m.Valid()
    requires t.auxIndex + |ms| <= FILTER_SPLIT_LIMIT * |t.codecs|
    ensures var u := Run(t, ms);
            && u.codecs == t.codecs
            && if t.auxIndex + |ms| < FILTER_SPLIT_LIMIT * |t.codecs|
                then u.state.CodecFilter? && u.auxIndex == t.auxIndex + |ms|
               else u.state.Clevel? && u.auxIndex == 0
    decreases |ms|
  {
    if ms != [] {
      assert ms[0] in ms;
      CodecPhaseStep(t, ms[0]);
      hide Tuner.Step;
      StepIsSafe(t, ms[0]);
      if t.Step(ms[0]).state.CodecFilter? {
        CodecPhase(t.Step(ms[0]), ms[1..]);
      }
    }
  }

  lemma CodecPhaseStep(t: Tuner, m: Measurement)
    requires t.Safe() && t.state.CodecFilter? && m.Valid()
    ensures t.auxIndex / FILTER_SPLIT_LIMIT < |t.codecs|
    ensures var u := t.Step(m);
            && u.codecs == t.codecs
            && if t.auxIndex + 1 < FILTER_SPLIT_LIMIT * |t.codecs|
                then u.state.CodecFilter? && u.auxIndex == t.auxIndex + 1
               else u.state.Clevel? && u.auxIndex == 0
  {
    hide Tuner.Wins;
    SafeIndex(t);
    var k := t.auxIndex + 1;
    assert k == FILTER_SPLIT_LIMIT * (k / FILTER_SPLIT_LIMIT) + k % FILTER_SPLIT_LIMIT;
  }

  // ---------------------------------------------------------------------
  // Accepted improvements never cycle

  function Mul(a: real, b: real): real { a * b }

  function Square(x: real): real { Mul(x, x) }

  function Cube(x: real): real { Mul(Square(x), x) }

  function Fifth(x: real): real { Mul(Cube(x), Square(x)) }

  /** What every accepted improvement increases. */
  ghost function Potential(comp: CompMode, p: CParams): real
    requires p.score > 0.0
  {
    FifthPositive(p.score);
    if comp.CompHSP? then Cube(p.cratio) / Fifth(p.score) else p.cratio
  }

  lemma MulMonoReal(a: real, a': real, b: real, b': real)
    requires 0.0 < a < a' && 0.0 < b < b'
    ensures 0.0 < Mul(a, b) < Mul(a', b')
  {
    assert a * b < a' * b;
    assert a' * b < a' * b';
  }

  lemma PowersMono(x: real, y: real)
    requires 0.0 < x < y
    ensures 0.0 < Cube(x) < Cube(y) && 0.0 < Fifth(x) < Fifth(y)
  {
    hide Mul;
    MulMonoReal(x, y, x, y);
    MulMonoReal(Square(x), Square(y), x, y);
    MulMonoReal(Cube(x), Cube(y), Square(x), Square(y));
  }

  lemma FifthPositive(x: real)
    requires x > 0.0
    ensures Fifth(x) > 0.0 && Cube(x) > 0.0
  {
    hide Cube, Fifth;
    PowersMono(x, x + 1.0);
  }

  /** Both factors above their bounds lift the product above the bounds' product. */
  lemma GainAbove(a: real, a0: real, b: real, b0: real)
    requires 0.0 < a0 < a && 0.0 < b0 < b && Mul(Cube(a0), Fifth(b0)) >= 1.0
    ensures Mul(Cube(a), Fifth(b)) > 1.0
  {
    hide Cube, Fifth, Mul;
    PowersMono(a0, a);
    PowersMono(b0, b);
    MulMonoReal(Cube(a0), Cube(a), Fifth(b0), Fifth(b));
  }

  /** In HSP mode an accepted improvement has cratio^3 * score^5 above one. */
  lemma HspGain(a: real, b: real)
    requires a > 0.0 && b > 0.0 && Improved(CompHSP, b, a)
    ensures Mul(Cube(a), Fifth(b)) > 1.0
  {
    if a > 1.0 && b > 1.0 {
      GainAbove(a, 1.0, b, 1.0);
    } else if a > 0.5 && b > 2.0 {
      GainAbove(a, 0.5, b, 2.0);
    } else if a > 0.67 && b > 1.3 {
      GainAbove(a, 0.67, b, 1.3);
    } else {
      GainAbove(a, 2.0, b, 0.7);
    }
  }

  lemma Interchange(a: real, b: real, c: real, d: real)
    ensures Mul(Mul(a, b), Mul(c, d)) == Mul(Mul(a, c), Mul(b, d))
  {}

  lemma PowersOfProduct(q: real, y: real)
    ensures Cube(Mul(q, y)) == Mul(Cube(q), Cube(y))
    ensures Fifth(Mul(q, y)) == Mul(Fifth(q), Fifth(y))
  {
    hide Mul;
    Interchange(q, y, q, y);
    Interchange(Square(q), Square(y), q, y);
    Interchange(Cube(q), Cube(y), Square(q), Square(y));
  }

  lemma MulOfQuotient(x: real, y: real)
    requires y > 0.0
    ensures Mul(x / y, y) == x
  {}

  /** Every accepted improvement strictly increases the potential. */
  lemma WinRaisesPotential(comp: CompMode, p: CParams, q: CParams)
    requires p.score > 0.0 && p.cratio > 0.0 && q.score > 0.0 && q.cratio > 0.0
    requires Improved(comp, p.score / q.score, q.cratio / p.cratio)
    ensures Potential(comp, q) > Potential(comp, p)
  {
    hide Cube, Fifth, Mul;
    var a, b := q.cratio / p.cratio, p.score / q.score;
    MulOfQuotient(q.cratio, p.cratio);
    MulOfQuotient(p.score, q.score);
    if comp.CompHSP? {
      assert a > 0.0 && b > 0.0;
      HspGain(a, b);
      PowersOfProduct(a, p.cratio);
      PowersOfProduct(b, q.score);
      hide *;
      FifthPositive(p.score);
      FifthPositive(q.score);
      FifthPositive(p.cratio);
      RatioGrows(Cube(a), Cube(p.cratio), Cube(q.cratio), Fifth(b), Fifth(q.score), Fifth(p.score));
    } else {
      assert a > 1.0;
      MulAboveOne(a, p.cratio);
    }
  }

  lemma MulAboveOne(a: real, p: real)
    requires a > 1.0 && p > 0.0
    ensures Mul(a, p) > p
  {
    assert (a - 1.0) * p > 0.0;
  }

  /** c' = x c and s = y s' with x y > 1 make c'/s' exceed c/s. */
  lemma RatioGrows(x: real, c: real, c': real, y: real, s': real, s: real)
    requires Mul(x, c) == c' && Mul(y, s') == s && Mul(x, y) > 1.0 && c > 0.0 && s > 0.0 && s' > 0.0
    ensures c' / s' > c / s
  {
    var p := c / s;
    PositiveQuotient(c, s);
    MulOfQuotient(c, s);
    MulAboveOne(Mul(x, y), p);
    Regroup(x, p, y, s');
    QuotientIs(c', s', Mul(Mul(x, y), p));
  }

  lemma Regroup(x: real, p: real, y: real, s: real)
    ensures Mul(x, Mul(p, Mul(y, s))) == Mul(Mul(Mul(x, y), p), s)
  {}

  lemma PositiveQuotient(c: real, s: real)
    requires c > 0.0 && s > 0.0
    ensures c / s > 0.0
  {}

  lemma QuotientIs(c: real, s: real, q: real)
    requires s > 0.0 && c == Mul(q, s)
    ensures c / s == q
  {}

  /** The measurement is accepted, so `best` is replaced. */
  predicate Accepts(t: Tuner, m: Measurement)
    requires t.Safe() && m.Valid()
  {
    !t.state.Stop? && t.Wins(m)
  }

  function Accepted(t: Tuner, ms: seq<Measurement>): nat
    requires t.Safe() && forall m | m in ms :: m.Valid()
    decreases |ms|
  {
    if ms == [] then 0 else
      StepIsSafe(t, ms[0]);
      (if Accepts(t, ms[0]) then 1 else 0) + Accepted(t.Step(ms[0]), ms[1..])
  }

  predicate SameResult(p: CParams, q: CParams) { p.score == q.score && p.cratio == q.cratio }

  lemma ProcessKeepsResult(t: Tuner)
    ensures SameResult(t.ProcessWaiting().best, t.best)
  {
    hide Due, Tuner.HasEndedClevel;
    match t.readaptFrom
    case Hard =>
    case Soft =>
    case Wait =>
  }

  lemma UpdateAuxKeepsResult(t: Tuner, improved: bool)
    ensures SameResult(t.UpdateAux(improved).best, t.best)
  {
    hide Tuner.ProcessWaiting, Tuner.HasEndedClevel;
    forall u: Tuner ensures SameResult(u.ProcessWaiting().best, u.best) {
      ProcessKeepsResult(u);
    }
  }

  /** A step changes the best result exactly when it accepts the measurement. */
  lemma StepResult(t: Tuner, m: Measurement)
    requires t.Safe() && m.Valid()
    ensures t.state.CodecFilter? ==> t.auxIndex / FILTER_SPLIT_LIMIT < |t.codecs|
    ensures var u := t.Step(m);
            if Accepts(t, m) then u.best.score == m.score && u.best.cratio == m.cratio else SameResult(u.best, t.best)
  {
    hide Tuner.UpdateAux, Improved;
    NextIsChosen(t);
    if !t.state.Stop? {
      UpdateAuxKeepsResult(Measured(t, m).0, Measured(t, m).1);
    }
  }

  /** Over a whole run the potential never falls, and it rises as soon as one
      measurement is accepted; otherwise the best result is untouched. */
  lemma {:induction false} RunPotential(t: Tuner, ms: seq<Measurement>)
    requires t.Safe() && forall m | m in ms :: m.Valid()
    ensures Run(t, ms).best.score > 0.0
    ensures if Accepted(t, ms) > 0 then Potential(t.config.comp, Run(t, ms).best) > Potential(t.config.comp, t.best)
            else SameResult(Run(t, ms).best, t.best)
    decreases |ms|
  {
    if ms != [] {
      assert ms[0] in ms;
      StepIsSafe(t, ms[0]);
      StepResult(t, ms[0]);
      StepKeepsConfig(t, ms[0]);
      if Accepts(t, ms[0]) {
        WinRaisesPotential(t.config.comp, t.best, t.Step(ms[0]).best);
      }
      hide Tuner.Step, Tuner.Wins, Tuner.Safe;
      RunPotential(t.Step(ms[0]), ms[1..]);
    }
  }

  /** Tuning never cycles: from any safe state, once something was accepted the
      best result never again has the ratio and score it has now. */
  lemma NeverReturns(t: Tuner, ms: seq<Measurement>)
    requires t.Safe() && (forall m | m in ms :: m.Valid()) && Accepted(t, ms) > 0
    ensures !SameResult(Run(t, ms).best, t.best)
  {
    hide Tuner.Safe;
    RunPotential(t, ms);
  }
}
