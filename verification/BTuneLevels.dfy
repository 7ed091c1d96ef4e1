/** The levels the tuner tries: by how much a CLEVEL phase moves, when it turns
    and ends, what the caps leave, and how large its steps are
    (src/btune/iabtune.c). */
module BTuneLevels {
  import opened BTuneSpec
  import opened BTuneRuns
  import opened BTuneAnyMode
  import opened BTuneVerdict

  // ---------------------------------------------------------------------
  // Caps

  /** The highest level a codec is recorded with. */
  function Ceiling(comp: CompMode, codec: Codec): int {
    if comp.CompHCR? then 6
    else if comp.CompBalanced? && codec in {ZSTD, ZLIB} then 3
    else MAX_CLEVEL
  }

  function Min(a: int, b: int): int { if a <= b then a else b }

  lemma CapIsMinimum(t: Tuner, p: CParams)
    requires 1 <= p.clevel <= MAX_CLEVEL
    ensures t.CapClevel(p) == p.(clevel := Min(p.clevel, Ceiling(t.config.comp, p.codec)))
  {}

  /** What a compression is run with. */
  function HandedOn(t: Tuner): CParams
    requires t.Safe()
  {
    NextIsChosen(t);
    t.HandedOn()
  }

  /** The tuner records what it hands to the compressor with the level capped; the
      compressor itself is not held to the cap. */
  lemma RecordedIsCapped(t: Tuner)
    requires t.Safe()
    ensures var h := HandedOn(t); TriedParams(t) == h.(clevel := Min(h.clevel, Ceiling(t.config.comp, h.codec)))
  {
    NextIsChosen(t);
  }

  /** Without a hint, the first compression of an HCR run for decompression is
      already above the ceiling: level 8, recorded as 6. */
  lemma CapIsMissed(config: Config, context: CParams)
    requires Starts(config, context) && !config.hint && config.comp.CompHCR? && config.perf.PerfDecomp?
    ensures var t := Init(config, context);
            t.Safe() && HandedOn(t).clevel == 8 && TriedParams(t).clevel == 6 == Ceiling(config.comp, HandedOn(t).codec)
  {
    InitIsSafe(config, context);
    NextIsChosen(Init(config, context));
  }

  /** Outside a CLEVEL phase the level tried is the best one; only the first hard
      readapt starts ZSTD, or what follows ZLIB, at level 3 unless decompression is
      what counts.  The cap comes on top. */
  lemma LevelTried(t: Tuner)
    requires t.Safe() && !t.state.Clevel?
    ensures var p := HandedOn(t);
            var slow := t.state.CodecFilter? && t.nhards == 0 && !t.config.perf.PerfDecomp? &&
                        (p.codec == ZSTD || t.best.codec == ZLIB);
            && (!t.state.CodecFilter? ==>
                  p.codec == t.best.codec && p.filter == t.best.filter && p.split == t.best.split)
            && p.clevel == if slow then 3 else t.best.clevel
  {
    NextIsChosen(t);
  }

  // ---------------------------------------------------------------------
  // A CLEVEL phase in which everything is accepted

  /** No cap and no exception for this codec and mode. */
  predicate Free(t: Tuner) { !t.config.comp.CompHCR? && FastCodec(t.best.codec) }

  /** One accepted level down. */
  lemma StepDown(t: Tuner, m: Measurement)
    requires t.Safe() && t.state.Clevel? && Free(t) && !t.best.increasing && m.Valid() && Accepts(t, m)
    requires t.best.clevel > 1 + t.stepSize
    ensures var u := t.Step(m);
            && u.best.clevel == t.best.clevel - t.stepSize && u.best.codec == t.best.codec && u.config == t.config
            && if u.best.clevel > 1 + t.stepSize
               then u == t.(best := u.best, aux := u.aux, auxIndex := t.auxIndex + 1) && !u.best.increasing
               else u.auxIndex == 0
  {
    ClevelUpdate(t, m);
    StepKeepsConfig(t, m);
    LevelDown(t, m);
    hide Tuner.Step, Tuner.Wins, Tuner.ProcessWaiting;
    StepBest(t, m);
    var (v, improved) := Measured(t, m);
    if ClevelOver(v, improved) {
      ProcessKeepsConfig(Turned(v, improved).(auxIndex := 0, state := Waiting));
    }
  }

  /** What is tried on the way down. */
  lemma LevelDown(t: Tuner, m: Measurement)
    requires t.Safe() && t.state.Clevel? && Free(t) && !t.best.increasing && m.Valid() && Accepts(t, m)
    requires t.best.clevel > t.stepSize
    ensures var v := Measured(t, m).0;
            Measured(t, m).1 && v.best.clevel == t.best.clevel - t.stepSize && !v.best.increasing &&
            v.best.codec == t.best.codec
  {
    SameVerdict(t, m);
  }

  /** One accepted level up. */
  lemma StepUp(t: Tuner, m: Measurement)
    requires t.Safe() && t.state.Clevel? && Free(t) && t.best.increasing && m.Valid() && Accepts(t, m)
    requires t.best.clevel < MAX_CLEVEL - t.stepSize
    ensures var u := t.Step(m);
            && u.best.clevel == t.best.clevel + t.stepSize && u.best.codec == t.best.codec && u.config == t.config
            && if u.best.clevel < MAX_CLEVEL - t.stepSize
               then u == t.(best := u.best, aux := u.aux, auxIndex := t.auxIndex + 1) && u.best.increasing
               else u.auxIndex == 0
  {
    ClevelUpdate(t, m);
    StepKeepsConfig(t, m);
    LevelUp(t, m);
    hide Tuner.Step, Tuner.Wins, Tuner.ProcessWaiting;
    StepBest(t, m);
    var (v, improved) := Measured(t, m);
    if ClevelOver(v, improved) {
      ProcessKeepsConfig(Turned(v, improved).(auxIndex := 0, state := Waiting));
    }
  }

  lemma LevelUp(t: Tuner, m: Measurement)
    requires t.Safe() && t.state.Clevel? && Free(t) && t.best.increasing && m.Valid() && Accepts(t, m)
    requires t.best.clevel <= MAX_CLEVEL - t.stepSize
    ensures var v := Measured(t, m).0;
            Measured(t, m).1 && v.best.clevel == t.best.clevel + t.stepSize && v.best.increasing &&
            v.best.codec == t.best.codec
  {
    SameVerdict(t, m);
  }

  /** The level after `k` accepted steps of a phase. */
  function LevelAfter(t: Tuner, k: nat): int {
    if t.best.increasing then t.best.clevel + k * t.stepSize else t.best.clevel - k * t.stepSize
  }

  /** There is a step to take from this level. */
  predicate HasRoom(t: Tuner, level: int) {
    if t.best.increasing then level < MAX_CLEVEL - t.stepSize else level > 1 + t.stepSize
  }

  /** One accepted step, either way. */
  lemma OneMove(t: Tuner, m: Measurement)
    requires t.Safe() && t.state.Clevel? && Free(t) && m.Valid() && Accepts(t, m) && HasRoom(t, LevelAfter(t, 0))
    ensures t.Step(m).best.clevel == LevelAfter(t, 1)
    ensures if HasRoom(t, LevelAfter(t, 1))
            then t.Step(m).state.Clevel? && Free(t.Step(m)) && t.Step(m).stepSize == t.stepSize &&
                 t.Step(m).best.increasing == t.best.increasing && t.Step(m).auxIndex == t.auxIndex + 1
            else t.Step(m).auxIndex == 0
  {
    if t.best.increasing { StepUp(t, m); } else { StepDown(t, m); }
    hide Tuner.Step, Tuner.Wins, Tuner.Safe;
  }

  /** Main result: measurements that are all accepted move the level by exactly one
      step each, in the direction of the phase, which is over at the first level
      from which there is no further step. */
  lemma {:induction false} LevelsMove(t: Tuner, ms: seq<Measurement>)
    requires t.Safe() && t.state.Clevel? && Free(t) && (forall m | m in ms :: m.Valid()) && Accepted(t, ms) == |ms|
    requires |ms| > 0 ==> HasRoom(t, LevelAfter(t, |ms| - 1))
    ensures Run(t, ms).best.clevel == LevelAfter(t, |ms|)
    ensures HasRoom(t, LevelAfter(t, |ms|)) ==> Run(t, ms).state.Clevel? && Run(t, ms).auxIndex == t.auxIndex + |ms|
    ensures |ms| > 0 && !HasRoom(t, LevelAfter(t, |ms|)) ==> Run(t, ms).auxIndex == 0
    decreases |ms|
  {
    if ms != [] {
      FirstAccepted(t, ms);
      assert t.stepSize > 0;
      RoomBefore(t, |ms| - 1);
      OneMove(t, ms[0]);
      hide Tuner.Step, Tuner.Safe, HasRoom, LevelAfter, Free, Accepted;
      var u, rest := t.Step(ms[0]), ms[1..];
      if HasRoom(t, LevelAfter(t, 1)) {
        OneStepOn(t, u, |rest|);
        if rest != [] { OneStepOn(t, u, |rest| - 1); }
        LevelsMove(u, rest);
      } else {
        if rest != [] { RoomAfterOne(t, |rest|); }
        assert rest == [];
      }
    }
  }

  /** If all are accepted, so are the first and all the others. */
  lemma FirstAccepted(t: Tuner, ms: seq<Measurement>)
    requires t.Safe() && ms != [] && (forall m | m in ms :: m.Valid()) && Accepted(t, ms) == |ms|
    ensures ms[0].Valid() && Accepts(t, ms[0])
    ensures t.state.CodecFilter? ==> t.auxIndex / FILTER_SPLIT_LIMIT < |t.codecs|
    ensures t.Step(ms[0]).Safe() && (forall m | m in ms[1..] :: m.Valid())
    ensures Accepted(t.Step(ms[0]), ms[1..]) == |ms[1..]|
    ensures Run(t, ms) == Run(t.Step(ms[0]), ms[1..])
  {
    assert ms[0] in ms;
    StepIsSafe(t, ms[0]);
    hide Tuner.Step, Tuner.Wins, Tuner.Safe;
    AcceptedAtMost(t.Step(ms[0]), ms[1..]);
  }

  lemma {:induction false} AcceptedAtMost(t: Tuner, ms: seq<Measurement>)
    requires t.Safe() && forall m | m in ms :: m.Valid()
    ensures Accepted(t, ms) <= |ms|
    decreases |ms|
  {
    if ms != [] {
      StepIsSafe(t, ms[0]);
      AcceptedAtMost(t.Step(ms[0]), ms[1..]);
    }
  }

  lemma RoomBefore(t: Tuner, k: nat)
    requires t.stepSize > 0 && HasRoom(t, LevelAfter(t, k))
    ensures HasRoom(t, LevelAfter(t, 0))
  {
    assert k * t.stepSize >= 0;
  }

  lemma RoomAfterOne(t: Tuner, k: nat)
    requires t.stepSize > 0 && k > 0 && HasRoom(t, LevelAfter(t, k))
    ensures HasRoom(t, LevelAfter(t, 1))
  {
    assert (k - 1) * t.stepSize >= 0;
    assert k * t.stepSize == (k - 1) * t.stepSize + t.stepSize;
  }

  lemma OneStepOn(t: Tuner, u: Tuner, k: nat)
    requires u.stepSize == t.stepSize && u.best.increasing == t.best.increasing && u.best.clevel == LevelAfter(t, 1)
    ensures LevelAfter(u, k) == LevelAfter(t, k + 1)
    ensures HasRoom(u, LevelAfter(u, k)) <==> HasRoom(t, LevelAfter(t, k + 1))
  {
    assert (k + 1) * t.stepSize == k * t.stepSize + t.stepSize;
  }

  // ---------------------------------------------------------------------
  // Turning round, and the end of a phase

  /** A phase can go on exactly as long as there is room for another step. */
  lemma EndedExactly(t: Tuner)
    ensures t.HasEndedClevel() <==> !HasRoom(t, t.best.clevel)
  {}

  /** The level a phase tries next: one step on, if that is a level at all, and never
      ZSTD's level 9. */
  lemma LevelTriedInPhase(t: Tuner)
    requires t.Safe() && t.state.Clevel?
    ensures var target := LevelAfter(t, 1);
            var next := if 1 <= target <= MAX_CLEVEL then target else t.best.clevel;
            var reached := if next == 9 && t.best.codec == ZSTD && t.best.increasing && target == 9 then 8 else next;
            HandedOn(t) == t.best.(clevel := reached)
  {
    NextIsChosen(t);
    assert 1 * t.stepSize == t.stepSize;
  }

  /** When a compression is run above the ceiling of its codec, in a phase that
      starts from a level within it: exactly when the phase goes up and its next
      step leads there. */
  lemma CapMissedExactly(t: Tuner)
    requires t.Safe() && t.state.Clevel? && t.best.clevel <= Ceiling(t.config.comp, t.best.codec)
    ensures HandedOn(t).clevel > Ceiling(t.config.comp, t.best.codec) <==>
              t.best.increasing && Ceiling(t.config.comp, t.best.codec) < t.best.clevel + t.stepSize <= MAX_CLEVEL
  {
    NextIsChosen(t);
  }

  /** A first compression that is not accepted turns the direction round. */
  lemma FirstMiss(t: Tuner, m: Measurement)
    requires t.Safe() && t.state.Clevel? && t.auxIndex == 0 && m.Valid() && !Accepts(t, m)
    ensures var turned := t.(best := t.best.(increasing := !t.best.increasing));
            var u := t.Step(m);
            if HasRoom(turned, t.best.clevel) then u == turned.(aux := u.aux, auxIndex := 1)
            else u.auxIndex == 0 && SameButDirection(u.best, t.best)
  {
    ClevelUpdate(t, m);
    hide Tuner.Step, Tuner.Wins, Tuner.ProcessWaiting;
    MissKeepsBest(t, m);
    var (v, improved) := Measured(t, m);
    var z := Turned(v, improved).(auxIndex := 0, state := Waiting);
    ProcessKeepsConfig(z);
    ProcessKeepsBest(z);
  }

  /** A later one ends the phase. */
  lemma LaterMiss(t: Tuner, m: Measurement)
    requires t.Safe() && t.state.Clevel? && t.auxIndex > 0 && m.Valid() && !Accepts(t, m)
    ensures t.Step(m).auxIndex == 0 && SameButDirection(t.Step(m).best, t.best)
  {
    ClevelUpdate(t, m);
    hide Tuner.Step, Tuner.Wins, Tuner.ProcessWaiting;
    MissKeepsBest(t, m);
    var (v, improved) := Measured(t, m);
    var z := Turned(v, improved).(auxIndex := 0, state := Waiting);
    ProcessKeepsConfig(z);
    ProcessKeepsBest(z);
  }

  lemma MissKeepsBest(t: Tuner, m: Measurement)
    requires t.Safe() && t.state.Clevel? && m.Valid() && !Accepts(t, m)
    ensures !Measured(t, m).1 && Measured(t, m).0.best == t.best
  {
    SameVerdict(t, m);
    hide Improved;
  }

  /** A soft readapt starts with room for a step. */
  lemma SoftHasRoom(t: Tuner)
    requires 1 <= t.best.clevel <= MAX_CLEVEL && (t.stepSize == SOFT_STEP_SIZE || t.stepSize == HARD_STEP_SIZE)
    ensures HasRoom(t.InitSoft(), t.best.clevel) && SameButDirection(t.InitSoft().best, t.best)
  {}

  // ---------------------------------------------------------------------
  // Step sizes

  /** The soft readapt a hinted run may start with. */
  predicate FirstSoft(t: Tuner) { t.config.hint && t.nsofts == 0 && t.nhards == 0 }

  /** Two levels at a time in hard readapts, one in the last of them, and one in
      soft readapts; the soft readapt that a hinted run starts with goes by two
      levels unless a single hard readapt is configured. */
  predicate StepsRight(t: Tuner) {
    match t.state
    case CodecFilter => t.readaptFrom.Hard? && t.stepSize == HardStep(t)
    case Clevel =>
      if t.readaptFrom.Hard? then t.stepSize == HardStep(t)
      else
        && t.readaptFrom.Soft?
        && (t.stepSize == 1 || (FirstSoft(t) && t.stepSize == if t.config.hards == 1 then 1 else 2))
    case _ => true
  }

  function HardStep(t: Tuner): int { if t.nhards + 1 == t.config.hards then 1 else 2 }

  lemma ProcessSteps(z: Tuner)
    requires z.state.Waiting?
    ensures StepsRight(z.ProcessWaiting())
  {
    hide Due, Tuner.HasEndedClevel;
    match z.readaptFrom
    case Hard =>
    case Soft =>
    case Wait =>
  }

  lemma StepKeepsSteps(t: Tuner, m: Measurement)
    requires t.Safe() && m.Valid() && StepsRight(t)
    ensures t.state.CodecFilter? ==> t.auxIndex / FILTER_SPLIT_LIMIT < |t.codecs|
    ensures StepsRight(t.Step(m))
  {
    NextIsChosen(t);
    match t.state
    case CodecFilter =>
      hide Tuner.Wins;
    case Clevel =>
      ClevelUpdate(t, m);
      var (v, improved) := Measured(t, m);
      ProcessSteps(Turned(v, improved).(auxIndex := 0, state := Waiting));
      hide Tuner.ProcessWaiting, Tuner.Wins, Tuner.Step;
    case Waiting =>
      StepIsUpdateAux(t, m);
      hide Tuner.Wins, Tuner.ProcessWaiting;
      ProcessSteps(Measured(t, m).0);
    case Stop => StoppedStays(t, m);
  }

  /** In every mode, with a hint or without, that is how large the steps of every
      reachable state are. */
  lemma {:induction false} RunKeepsSteps(t: Tuner, ms: seq<Measurement>)
    requires t.Safe() && StepsRight(t) && forall m | m in ms :: m.Valid()
    ensures StepsRight(Run(t, ms))
    decreases |ms|
  {
    if ms != [] {
      assert ms[0] in ms;
      StepIsSafe(t, ms[0]);
      StepKeepsSteps(t, ms[0]);
      hide Tuner.Step, StepsRight;
      RunKeepsSteps(t.Step(ms[0]), ms[1..]);
    }
  }

  lemma StepsFromStart(config: Config, context: CParams, ms: seq<Measurement>)
    requires Starts(config, context) && forall m | m in ms :: m.Valid()
    ensures Init(config, context).Safe() && StepsRight(Run(Init(config, context), ms))
  {
    InitIsSafe(config, context);
    RunKeepsSteps(Init(config, context), ms);
  }

  // ---------------------------------------------------------------------
  // The first compression

  /** The first measurement is weighed against a score of 100 and a ratio of 1.1. */
  lemma FirstVerdict(config: Config, context: CParams, m: Measurement)
    requires Starts(config, context) && m.Valid()
    ensures var t := Init(config, context);
            && t.Safe()
            && (Accepts(t, m) <==>
                  !t.state.Stop? && !m.special && Meets(Needed(config.comp, 100.0 / m.score), m.cratio / 1.1))
  {
    InitIsSafe(config, context);
    VerdictExactly(config.comp, 100.0 / m.score, m.cratio / 1.1);
    hide Improved, Needed, Config.Codecs, Tuner.HasEndedClevel;
  }

  /** The codec, filter and split of a hint are what is tried first, unless a hard
      readapt comes first; the level starts from the hint's. */
  lemma FirstOfHint(config: Config, context: CParams)
    requires config.hint && Starts(config, context)
    ensures var t := Init(config, context);
            && t.Safe()
            && (t.state.CodecFilter? <==> config.hards > 0 && config.softs == 0 && config.waits == 0)
            && t.best.codec == context.codec && t.best.filter == context.filter && t.best.split == context.split
            && t.best.clevel == context.clevel
            && (!t.state.CodecFilter? ==>
                  var p := TriedParams(t);
                  p.codec == context.codec && p.filter == context.filter && p.split == context.split)
  {
    InitIsSafe(config, context);
    NextIsChosen(Init(config, context));
    hide Config.Codecs, Tuner.HasEndedClevel;
  }

  /** Without a hint it is the first codec of the list, unfiltered and split, at
      level 9; in HCR mode, which starts from level 8, at 3, or at 8 (recorded as 6)
      where decompression is what counts. */
  lemma FirstUnhinted(config: Config, context: CParams)
    requires !config.hint && Starts(config, context)
    ensures var t := Init(config, context);
            && t.Safe() && t.state.CodecFilter?
            && t.best.clevel == (if config.comp.CompHCR? then 8 else 9)
            && var p := HandedOn(t);
               && p.codec == config.Codecs()[0] && p.filter == 0 && p.split == ALWAYS_SPLIT
               && p.clevel == if !config.comp.CompHCR? then 9 else if config.perf.PerfDecomp? then 8 else 3
  {
    InitIsSafe(config, context);
    NextIsChosen(Init(config, context));
  }
}
