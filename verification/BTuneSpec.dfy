/** The tuning state machine (src/btune/iabtune.c) as functions on its state.
    The class in BTune.dfy updates its fields in place and is proved against
    these functions; everything here is about whole runs of them. */
module BTuneSpec {
  import opened Arith

  const MAX_CLEVEL := 9
  const SOFT_STEP_SIZE := 1
  const HARD_STEP_SIZE := 2
  const FILTER_SPLIT_LIMIT := 6
  const ALWAYS_SPLIT := 1

  datatype CompMode = CompHSP | CompBalanced | CompHCR
  datatype PerfMode = PerfComp | PerfDecomp | PerfBalanced
  datatype RepeatMode = RepeatStop | RepeatSoft | RepeatAll
  datatype Codec = BLOSCLZ | LZ4 | LZ4HC | ZLIB | ZSTD
  datatype Readapt = Wait | Soft | Hard

  /** The states that the compile-time switches leave in use (BTunePhases). */
  datatype State = CodecFilter | Clevel | Waiting | Stop

  datatype Config = Config(perf: PerfMode, comp: CompMode, waits: nat, softs: nat, hards: nat, repeat: RepeatMode,
                           hint: bool, hasZstd: bool, hasZlib: bool)
  {
    /** btune_get_codecs */
    function Codecs(): seq<Codec> {
      if comp.CompHCR? then
        (if hasZstd then [ZSTD] else []) + (if hasZlib then [ZLIB] else [])
      else
        [LZ4] + (if comp.CompBalanced? then [BLOSCLZ] else []) + (if perf.PerfDecomp? then [LZ4HC] else [])
    }

    function MinimumHards(): nat { if hint then 0 else 1 }
  }

  /** The compression parameters that are being tuned, with the result they gave. */
  datatype CParams = CParams(codec: Codec, filter: nat, split: nat, clevel: int, increasing: bool, score: real,
                             cratio: real)

  /** What a compression returns: its score (smaller is better), its ratio, and
      whether the chunk was made of special values only. */
  datatype Measurement = Measurement(score: real, cratio: real, special: bool)
  {
    predicate Valid() { score > 0.0 && cratio > 0.0 }
  }

  predicate Improved(comp: CompMode, scoreCoef: real, cratioCoef: real) {
    match comp
    case CompHSP =>
      || (cratioCoef > 1.0 && scoreCoef > 1.0)
      || (cratioCoef > 0.5 && scoreCoef > 2.0)
      || (cratioCoef > 0.67 && scoreCoef > 1.3)
      || (cratioCoef > 2.0 && scoreCoef > 0.7)
    case CompBalanced =>
      || (cratioCoef > 1.0 && scoreCoef > 1.0)
      || (cratioCoef > 1.1 && scoreCoef > 0.8)
      || (cratioCoef > 1.3 && scoreCoef > 0.5)
    case CompHCR => cratioCoef > 1.0
  }

  /** n is a multiple of the configured count d. */
  predicate Due(n: nat, d: nat) { d > 0 && n % d == 0 }

  datatype Tuner = Tuner(config: Config, codecs: seq<Codec>, best: CParams, aux: CParams, auxIndex: nat, state: State,
                         stepSize: int, nwaitings: nat, nsofts: nat, nhards: nat, isRepeating: bool,
                         readaptFrom: Readapt)
  {
    predicate HasEndedClevel() {
      || (best.increasing && best.clevel >= MAX_CLEVEL - stepSize)
      || (!best.increasing && best.clevel <= 1 + stepSize)
    }

    function InitSoft(): Tuner {
      var t := if HasEndedClevel() then this.(best := best.(increasing := !best.increasing)) else this;
      t.(state := Clevel, stepSize := SOFT_STEP_SIZE, readaptFrom := Soft)
    }

    function InitHard(): Tuner {
      this.(state := CodecFilter, stepSize := HARD_STEP_SIZE, readaptFrom := Hard)
    }

    /** init_without_hards */
    function InitWithoutHards(): Tuner {
      var minimum := config.MinimumHards();
      var t :=
        if config.repeat.RepeatAll? && config.hards > minimum then InitHard()
        else if !config.repeat.RepeatStop? && config.softs > 0 then InitSoft()
        else if minimum == 0 && config.softs > 0 then InitSoft()
        else this.(state := Stop, readaptFrom := Wait);
      t.(isRepeating := true)
    }

    /** The cap set_btune_cparams puts on the level. */
    function CapClevel(p: CParams): CParams {
      var q := if config.comp.CompBalanced? && (p.codec == ZSTD || p.codec == ZLIB) && p.clevel >= 3
          then p.(clevel := 3) else p;
      if config.comp.CompHCR? && q.clevel >= 6 then q.(clevel := 6) else q
    }

    /** The combination tried at position `auxIndex` of a CODEC_FILTER phase. */
    function Combination(k: nat): (Codec, nat, nat)
      requires k / FILTER_SPLIT_LIMIT < |codecs|
    {
      var codec := codecs[k / FILTER_SPLIT_LIMIT];
      var split := (k % FILTER_SPLIT_LIMIT) / 3 + 1;
      (codec, k % (FILTER_SPLIT_LIMIT / 2), if codec == BLOSCLZ then ALWAYS_SPLIT else split)
    }

    function NextCodecFilter(): CParams
      requires auxIndex / FILTER_SPLIT_LIMIT < |codecs|
    {
      var (codec, filter, split) := Combination(auxIndex);
      var slow := !config.perf.PerfDecomp? && (codec == ZSTD || best.codec == ZLIB) && nhards == 0;
      best.(codec := codec, filter := filter, split := split, clevel := if slow then 3 else best.clevel)
    }

    function NextClevel(): CParams {
      if best.increasing then
        if best.clevel <= MAX_CLEVEL - stepSize then
          var up := best.clevel + stepSize;
          best.(clevel := if up == 9 && best.codec == ZSTD then 8 else up)
        else best
      else if best.clevel > stepSize then best.(clevel := best.clevel - stepSize)
      else best
    }

    /** What iabtune_next_cparams hands to the compressor: the parameters before the cap,
        which set_btune_cparams puts on the tuner's own record only. */
    function HandedOn(): CParams
      requires state.CodecFilter? ==> auxIndex / FILTER_SPLIT_LIMIT < |codecs|
    {
      match state
      case CodecFilter => NextCodecFilter()
      case Clevel => NextClevel()
      case _ => best
    }

    /** iabtune_next_cparams: the parameters to try next. */
    function NextCparams(): Tuner
      requires state.CodecFilter? ==> auxIndex / FILTER_SPLIT_LIMIT < |codecs|
    {
      match state
      case CodecFilter => this.(aux := CapClevel(NextCodecFilter()), auxIndex := auxIndex + 1)
      case Clevel => this.(aux := CapClevel(NextClevel()), auxIndex := auxIndex + 1)
      case Waiting => this.(aux := CapClevel(best), nwaitings := nwaitings + 1)
      case Stop => this.(aux := CapClevel(best))
    }

    /** process_waiting_state: which readapt comes next. */
    function ProcessWaiting(): Tuner {
      var t := AfterPhase();
      if t.readaptFrom.Hard? && t.nhards + 1 == t.config.hards then t.(stepSize := SOFT_STEP_SIZE) else t
    }

    function AfterPhase(): Tuner {
      var minimum := config.MinimumHards();
      match readaptFrom
      case Hard => this.(nhards := nhards + 1).AfterHard(minimum)
      case Soft => this.(nsofts := nsofts + 1, readaptFrom := Wait).AfterSoft(minimum)
      case Wait => AfterWait(minimum)
    }

    function AfterHard(minimum: nat): Tuner {
      if config.hards == minimum || Due(nhards, config.hards) then
        var t := this.(isRepeating := true);
        if config.softs > 0 && !config.repeat.RepeatStop? then t.InitSoft()
        else if !config.repeat.RepeatAll? then t.(state := Stop)
        else if config.waits > 0 then t.(state := Waiting, readaptFrom := Wait)
        else if config.hards > minimum then t.InitHard()
        else t.(state := Stop)
      else if config.softs > 0 then InitSoft()
      else if config.waits > 0 then this.(state := Waiting, readaptFrom := Wait)
      else InitHard()
    }

    function AfterSoft(minimum: nat): Tuner {
      if config.waits == 0 then
        if (config.softs == 0 || Due(nsofts, config.softs)) && !(isRepeating && !config.repeat.RepeatAll?) &&
            config.hards > minimum
        then InitHard()
        else if minimum == 0 && config.hards == 0 && Due(nsofts, config.softs) && config.repeat.RepeatStop?
        then this.(isRepeating := true, state := Stop)
        else InitSoft()
      else this
    }

    function AfterWait(minimum: nat): Tuner {
      if config.waits == 0 || (nwaitings != 0 && Due(nwaitings, config.waits)) then
        if (config.softs == 0 || (nsofts != 0 && Due(nsofts, config.softs))) &&
            !(isRepeating && !config.repeat.RepeatAll?) && config.hards > minimum
        then InitHard()
        else if config.softs > 0 && !(isRepeating && config.repeat.RepeatStop?) then InitSoft()
        else this
      else this
    }

    /** update_aux */
    function UpdateAux(improved: bool): Tuner {
      var firstTime := auxIndex == 1;
      var t :=
        match state
        case CodecFilter =>
          if auxIndex / FILTER_SPLIT_LIMIT == |codecs| then this.(auxIndex := 0, state := Clevel) else this
        case Clevel =>
          var u := if !improved && firstTime then this.(best := best.(increasing := !best.increasing)) else this;
          if u.HasEndedClevel() || (!improved && !firstTime) then u.(auxIndex := 0, state := Waiting) else u
        case _ => this;
      if t.state.Waiting? then t.ProcessWaiting() else t
    }

    /** The verdict on a measurement. */
    predicate Wins(m: Measurement)
      requires m.Valid() && best.cratio > 0.0
    {
      Improved(config.comp, best.score / m.score, m.cratio / best.cratio) && !m.special
    }

    /** iabtune_update: what a measurement does to the tuner. */
    function Update(m: Measurement): Tuner
      requires m.Valid() && best.cratio > 0.0
    {
      if state.Stop? then this
      else
        var t := this.(aux := aux.(score := m.score, cratio := m.cratio));
        var improved := t.Wins(m);
        (if improved then t.(best := t.aux) else t).UpdateAux(improved)
    }

    /** One compression: choose parameters, measure, react. */
    function Step(m: Measurement): Tuner
      requires m.Valid() && best.cratio > 0.0
      requires state.CodecFilter? ==> auxIndex / FILTER_SPLIT_LIMIT < |codecs|
    {
      NextCparams().Update(m)
    }

    // -------------------------------------------------------------------
    // What holds in every reachable state

    /** The level and the codec list stay usable, and the measures positive. */
    predicate Safe() {
      && 1 <= best.clevel <= MAX_CLEVEL && (stepSize == SOFT_STEP_SIZE || stepSize == HARD_STEP_SIZE)
      && best.score > 0.0 && best.cratio > 0.0
      && |codecs| > 0
      && (state.CodecFilter? ==> auxIndex < FILTER_SPLIT_LIMIT * |codecs|)
      && (!state.CodecFilter? && !state.Clevel? ==> auxIndex == 0)
      && (state.Waiting? ==> readaptFrom.Wait?)
    }
  }

  /** iabtune_init when the context's parameters are the hint to start from. */
  function FromHint(t: Tuner, context: CParams): Tuner {
    var codecs := if context.codec !in t.codecs then t.codecs + [context.codec] else t.codecs;
    var best := t.best.(codec := context.codec, filter := context.filter, split := context.split,
        clevel := context.clevel);
    var u := t.(codecs := codecs, best := best, aux := best);
    if t.config.hards > 0 then
      if t.config.softs > 0 then u.InitSoft()
      else if t.config.waits > 0 then u.(state := Waiting, readaptFrom := Wait)
      else u.InitHard()
    else u.InitWithoutHards()
  }

  /** iabtune_init, given the parameters of the compression context. */
  function Init(config: Config, context: CParams): Tuner
    requires |config.Codecs()| > 0
  {
    var codecs := config.Codecs();
    var start := CParams(codecs[0], 1, ALWAYS_SPLIT, if config.comp.CompHCR? then 8 else 9, false, 100.0, 1.1);
    var t := Tuner(config, codecs, start, start, 0, Stop, 0, 0, 0, 0, false, Wait);
    var u := if config.hint then FromHint(t, context) else t.InitHard().(config := config.(hards := config.hards + 1));
    u.(stepSize := if u.config.hards == 1 then SOFT_STEP_SIZE else HARD_STEP_SIZE)
  }

  /** The tuner starts in a safe state exactly when a hint, if there is one, names
      a level in 1..9; level 0, which the compressor also accepts, does not. */
  lemma InitIsSafe(config: Config, context: CParams)
    requires |config.Codecs()| > 0
    ensures Init(config, context).Safe() <==> (config.hint ==> 1 <= context.clevel <= MAX_CLEVEL)
  {}

  /** Between choosing parameters and measuring them. */
  predicate Chosen(t: Tuner) {
    && 1 <= t.best.clevel <= MAX_CLEVEL && 1 <= t.aux.clevel <= MAX_CLEVEL
    && (t.stepSize == SOFT_STEP_SIZE || t.stepSize == HARD_STEP_SIZE)
    && t.best.score > 0.0 && t.best.cratio > 0.0 && |t.codecs| > 0
    && (t.state.CodecFilter? ==> t.auxIndex <= FILTER_SPLIT_LIMIT * |t.codecs|)
    && (!t.state.CodecFilter? && !t.state.Clevel? ==> t.auxIndex == 0)
    && (t.state.Waiting? ==> t.readaptFrom.Wait?)
  }

  lemma SafeIndex(t: Tuner)
    requires t.Safe() && t.state.CodecFilter?
    ensures t.auxIndex / FILTER_SPLIT_LIMIT < |t.codecs|
  {
    DivBound(t.auxIndex, |t.codecs|, FILTER_SPLIT_LIMIT);
  }

  lemma NextIsChosen(t: Tuner)
    requires t.Safe()
    ensures t.state.CodecFilter? ==> t.auxIndex / FILTER_SPLIT_LIMIT < |t.codecs|
    ensures Chosen(t.NextCparams())
  {
    if t.state.CodecFilter? { SafeIndex(t); }
  }

  /** Ready to start whatever comes next. */
  predicate Idle(t: Tuner) {
    && 1 <= t.best.clevel <= MAX_CLEVEL && (t.stepSize == SOFT_STEP_SIZE || t.stepSize == HARD_STEP_SIZE)
    && t.best.score > 0.0 && t.best.cratio > 0.0 && |t.codecs| > 0 && t.auxIndex == 0
  }

  lemma IdleIsSafe(t: Tuner)
    requires Idle(t)
    ensures Resting(t.InitSoft()) && Resting(t.InitHard())
    ensures t.state.Stop? || (t.state.Waiting? && t.readaptFrom.Wait?) ==> Resting(t)
  {}

  predicate Resting(t: Tuner) { Idle(t) && t.Safe() }

  lemma AfterHardIsSafe(t: Tuner, minimum: nat)
    requires Idle(t)
    ensures Resting(t.AfterHard(minimum))
  {
    var u := t.(isRepeating := true);
    assert Idle(u) && Idle(u.(state := Stop)) && Idle(u.(state := Waiting, readaptFrom := Wait)) &&
        Idle(t.(state := Waiting, readaptFrom := Wait));
    hide Idle, Resting, Due, Tuner.InitSoft, Tuner.InitHard;
    IdleIsSafe(t);
    IdleIsSafe(u);
    IdleIsSafe(u.(state := Stop));
    IdleIsSafe(u.(state := Waiting, readaptFrom := Wait));
    IdleIsSafe(t.(state := Waiting, readaptFrom := Wait));
  }

  lemma AfterSoftIsSafe(t: Tuner, minimum: nat)
    requires Idle(t) && t.state.Waiting? && t.readaptFrom.Wait?
    ensures Resting(t.AfterSoft(minimum)) && Resting(t.AfterWait(minimum))
  {
    var u := t.(isRepeating := true, state := Stop);
    assert Idle(u);
    hide Idle, Resting, Due, Tuner.InitSoft, Tuner.InitHard;
    IdleIsSafe(t);
    IdleIsSafe(u);
  }

  lemma ProcessIsSafe(t: Tuner)
    requires Idle(t) && t.state.Waiting?
    ensures t.ProcessWaiting().Safe()
  {
    hide Tuner.AfterHard, Tuner.AfterSoft, Tuner.AfterWait;
    var minimum := t.config.MinimumHards();
    match t.readaptFrom
    case Hard => AfterHardIsSafe(t.(nhards := t.nhards + 1), minimum);
    case Soft => AfterSoftIsSafe(t.(nsofts := t.nsofts + 1, readaptFrom := Wait), minimum);
    case Wait => AfterSoftIsSafe(t, minimum);
  }

  lemma UpdateAuxIsSafe(t: Tuner, improved: bool)
    requires Chosen(t) && !t.state.Stop?
    ensures t.UpdateAux(improved).Safe()
  {
    hide Tuner.ProcessWaiting;
    var limit := t.auxIndex / FILTER_SPLIT_LIMIT;
    assert t.auxIndex == limit * FILTER_SPLIT_LIMIT + t.auxIndex % FILTER_SPLIT_LIMIT;
    match t.state
    case CodecFilter =>
    case Clevel =>
      var u := if !improved && t.auxIndex == 1 then t.(best := t.best.(increasing := !t.best.increasing)) else t;
      ProcessIsSafe(u.(auxIndex := 0, state := Waiting));
    case Waiting =>
      ProcessIsSafe(t);
  }

  /** No step leaves the safe states, whatever is measured. */
  lemma StepIsSafe(t: Tuner, m: Measurement)
    requires t.Safe() && m.Valid()
    ensures t.state.CodecFilter? ==> t.auxIndex / FILTER_SPLIT_LIMIT < |t.codecs|
    ensures t.Step(m).Safe()
  {
    NextIsChosen(t);
    var u := t.NextCparams();
    if !u.state.Stop? {
      hide Tuner.NextCparams, Tuner.UpdateAux, Tuner.Wins;
      var v := u.(aux := u.aux.(score := m.score, cratio := m.cratio));
      UpdateAuxIsSafe(if v.Wins(m) then v.(best := v.aux) else v, v.Wins(m));
    }
  }
}
