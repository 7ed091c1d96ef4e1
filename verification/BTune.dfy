/** The tuner as the object the library keeps (src/btune/iabtune.c): the fields
    of btune_struct, updated in place.  Every method does to the fields what the
    function of the same name in BTuneSpec does to a value, so what is proved
    about whole runs of those functions holds of the object. */
module BTune {
  import opened BTuneSpec
  import opened BTuneRuns
  import opened BTuneAnyMode
  import opened BTuneHints
  import opened BTuneRepeat
  import opened BTuneVerdict

  class BTune {
    var config: Config
    var codecs: seq<Codec>
    var best: CParams
    var aux: CParams
    /** What the compression context holds; not part of the tuner's own state. */
    var handedOn: CParams
    var auxIndex: nat
    var state: State
    var stepSize: int
    var nwaitings: nat
    var nsofts: nat
    var nhards: nat
    var isRepeating: bool
    var readaptFrom: Readapt

    ghost function Model(): Tuner
      reads this
    {
      Tuner(config, codecs, best, aux, auxIndex, state, stepSize, nwaitings, nsofts, nhards, isRepeating, readaptFrom)
    }

    predicate HasEndedClevel()
      reads this
      ensures HasEndedClevel() == Model().HasEndedClevel()
    {
      || (best.increasing && best.clevel >= MAX_CLEVEL - stepSize)
      || (!best.increasing && best.clevel <= 1 + stepSize)
    }

    function MinimumHards(): nat
      reads this
    {
      config.MinimumHards()
    }

    /** iabtune_init */
    constructor (config: Config, context: CParams)
      requires |config.Codecs()| > 0
      ensures Model() == Init(config, context)
    {
      this.config := config;
      codecs := config.Codecs();
      auxIndex, nsofts, nhards, nwaitings, isRepeating := 0, 0, 0, 0, false;
      state, readaptFrom, stepSize := Stop, Wait, 0;
      best := CParams(LZ4, 1, ALWAYS_SPLIT, 9, false, 100.0, 1.1);
      aux, handedOn := best, context;
      new;
      hide Tuner.InitSoft, Tuner.InitHard, Tuner.InitWithoutHards;
      best := best.(codec := codecs[0]);
      if config.comp.CompHCR? {
        best := best.(clevel := 8);
      }
      aux := best;
      if config.hint {
        InitFromHint(context);
      } else {
        InitHard();
        this.config := this.config.(hards := this.config.hards + 1);
      }
      stepSize := if this.config.hards == 1 then SOFT_STEP_SIZE else HARD_STEP_SIZE;
    }

    /** The cparams_hint branch of iabtune_init. */
    method InitFromHint(context: CParams)
      modifies this
      ensures Model() == FromHint(old(Model()), context)
    {
      best := best.(codec := context.codec, filter := context.filter, split := context.split, clevel := context.clevel);
      aux := best;
      AddCodec(context.codec);
      hide Tuner.InitSoft, Tuner.InitHard, Tuner.InitWithoutHards;
      if config.hards > 0 {
        if config.softs > 0 {
          InitSoft();
        } else if config.waits > 0 {
          state, readaptFrom := Waiting, Wait;
        } else {
          InitHard();
        }
      } else {
        InitWithoutHards();
      }
    }

    method AddCodec(codec: Codec)
      modifies this`codecs
      ensures codecs == if codec in old(codecs) then old(codecs) else old(codecs) + [codec]
    {
      for i := 0 to |codecs|
        invariant codecs == old(codecs) && codec !in codecs[..i]
      {
        if codecs[i] == codec {
          return;
        }
      }
      codecs := codecs + [codec];
    }

    method InitSoft()
      modifies this
      ensures Model() == old(Model()).InitSoft()
    {
      if HasEndedClevel() {
        best := best.(increasing := !best.increasing);
      }
      state, stepSize, readaptFrom := Clevel, SOFT_STEP_SIZE, Soft;
    }

    method InitHard()
      modifies this
      ensures Model() == old(Model()).InitHard()
    {
      state, stepSize, readaptFrom := CodecFilter, HARD_STEP_SIZE, Hard;
    }

    /** The C switch falls through from REPEAT_ALL to REPEAT_SOFT to STOP. */
    method InitWithoutHards()
      modifies this
      ensures Model() == old(Model()).InitWithoutHards()
    {
      if config.repeat.RepeatAll? && config.hards > MinimumHards() {
        InitHard();
      } else if !config.repeat.RepeatStop? && config.softs > 0 {
        InitSoft();
      } else if MinimumHards() == 0 && config.softs > 0 {
        InitSoft();
      } else {
        state, readaptFrom := Stop, Wait;
      }
      isRepeating := true;
    }

    /** set_btune_cparams: the compressor gets the parameters to try as they are, and
        only then is their level capped. */
    method SetCparams()
      modifies this`aux, this`handedOn
      ensures handedOn == old(aux) && aux == Model().CapClevel(old(aux))
    {
      handedOn := aux;
      if config.comp.CompBalanced? && (aux.codec == ZSTD || aux.codec == ZLIB) && aux.clevel >= 3 {
        aux := aux.(clevel := 3);
      }
      if config.comp.CompHCR? && aux.clevel >= 6 {
        aux := aux.(clevel := 6);
      }
    }

    /** The CODEC_FILTER case of iabtune_next_cparams. */
    method NextCodecFilter()
      requires auxIndex / FILTER_SPLIT_LIMIT < |codecs| && aux == best
      modifies this`aux
      ensures aux == Model().NextCodecFilter()
    {
      var codec := codecs[auxIndex / FILTER_SPLIT_LIMIT];
      var filter := auxIndex % (FILTER_SPLIT_LIMIT / 2);
      var split := (auxIndex % FILTER_SPLIT_LIMIT) / 3 + 1;
      if codec == BLOSCLZ {
        split := ALWAYS_SPLIT;
      }
      if (config.perf.PerfComp? || config.perf.PerfBalanced?) && (codec == ZSTD || aux.codec == ZLIB) && nhards == 0 {
        aux := aux.(clevel := 3);
      }
      aux := aux.(codec := codec, filter := filter, split := split);
    }

    /** The CLEVEL case of iabtune_next_cparams. */
    method NextClevel()
      requires aux == best
      modifies this`aux
      ensures aux == Model().NextClevel()
    {
      if aux.increasing {
        if aux.clevel <= MAX_CLEVEL - stepSize {
          aux := aux.(clevel := aux.clevel + stepSize);
          if aux.clevel == 9 && aux.codec == ZSTD {
            aux := aux.(clevel := 8);
          }
        }
      } else if aux.clevel > stepSize {
        aux := aux.(clevel := aux.clevel - stepSize);
      }
    }

    /** iabtune_next_cparams */
    method NextCparams()
      requires state.CodecFilter? ==> auxIndex / FILTER_SPLIT_LIMIT < |codecs|
      modifies this
      ensures Model() == old(Model()).NextCparams()
      ensures handedOn == old(Model()).HandedOn()
    {
      aux := best;
      match state {
        case CodecFilter =>
          NextCodecFilter();
          auxIndex := auxIndex + 1;
        case Clevel =>
          NextClevel();
          auxIndex := auxIndex + 1;
        case Waiting =>
          nwaitings := nwaitings + 1;
        case Stop =>
      }
      SetCparams();
    }

    /** The HARD case of process_waiting_state. */
    method AfterHard()
      modifies this
      ensures Model() == old(Model().(nhards := nhards + 1)).AfterHard(old(MinimumHards()))
    {
      nhards := nhards + 1;
      if config.hards == MinimumHards() || Due(nhards, config.hards) {
        isRepeating := true;
        if config.softs > 0 && !config.repeat.RepeatStop? {
          InitSoft();
        } else if !config.repeat.RepeatAll? {
          state := Stop;
        } else if config.waits > 0 {
          state, readaptFrom := Waiting, Wait;
        } else if config.hards > MinimumHards() {
          InitHard();
        } else {
          state := Stop;
        }
      } else if config.softs > 0 {
        InitSoft();
      } else if config.waits > 0 {
        state, readaptFrom := Waiting, Wait;
      } else {
        InitHard();
      }
    }

    /** The SOFT case of process_waiting_state. */
    method AfterSoft()
      modifies this
      ensures Model() == old(Model().(nsofts := nsofts + 1, readaptFrom := Wait)).AfterSoft(old(MinimumHards()))
    {
      nsofts := nsofts + 1;
      readaptFrom := Wait;
      if config.waits == 0 {
        if (config.softs == 0 || Due(nsofts, config.softs)) && !(isRepeating && !config.repeat.RepeatAll?) &&
            config.hards > MinimumHards() {
          InitHard();
        } else if MinimumHards() == 0 && config.hards == 0 && Due(nsofts, config.softs) && config.repeat.RepeatStop? {
          isRepeating, state := true, Stop;
        } else {
          InitSoft();
        }
      }
    }

    /** The WAIT case of process_waiting_state. */
    method AfterWait()
      modifies this
      ensures Model() == old(Model()).AfterWait(old(MinimumHards()))
    {
      if config.waits == 0 || (nwaitings != 0 && Due(nwaitings, config.waits)) {
        if (config.softs == 0 || (nsofts != 0 && Due(nsofts, config.softs))) &&
            !(isRepeating && !config.repeat.RepeatAll?) && config.hards > MinimumHards() {
          InitHard();
        } else if config.softs > 0 && !(isRepeating && config.repeat.RepeatStop?) {
          InitSoft();
        }
      }
    }

    /** The switch of process_waiting_state. */
    method AfterPhase()
      modifies this
      ensures Model() == old(Model()).AfterPhase()
    {
      hide Tuner.AfterHard, Tuner.AfterSoft, Tuner.AfterWait;
      match readaptFrom {
        case Hard => AfterHard();
        case Soft => AfterSoft();
        case Wait => AfterWait();
      }
    }

    /** process_waiting_state */
    method ProcessWaiting()
      modifies this
      ensures Model() == old(Model()).ProcessWaiting()
    {
      hide Tuner.AfterPhase;
      AfterPhase();
      if readaptFrom.Hard? && nhards + 1 == config.hards {
        stepSize := SOFT_STEP_SIZE;
      }
    }

    /** update_aux */
    method UpdateAux(improved: bool)
      modifies this
      ensures Model() == old(Model()).UpdateAux(improved)
    {
      hide Tuner.ProcessWaiting;
      var firstTime := auxIndex == 1;
      match state {
        case CodecFilter =>
          if auxIndex / FILTER_SPLIT_LIMIT == |codecs| {
            auxIndex, state := 0, Clevel;
          }
        case Clevel =>
          if !improved && firstTime {
            best := best.(increasing := !best.increasing);
          }
          if HasEndedClevel() || (!improved && !firstTime) {
            auxIndex, state := 0, Waiting;
          }
        case _ =>
      }
      if state.Waiting? {
        ProcessWaiting();
      }
    }

    /** iabtune_update: the best is what was tried, with its result, if the
        measurement beats it, and is left alone otherwise. */
    method Update(m: Measurement)
      requires m.Valid() && best.cratio > 0.0
      modifies this
      ensures Model() == old(Model()).Update(m)
      ensures SameButDirection(best,
                               old(if !state.Stop? && Beats(config.comp, best, m)
                                   then aux.(score := m.score, cratio := m.cratio) else best))
      ensures old(!state.Stop? && !m.special && m.score < best.score && m.cratio > best.cratio) ==>
                best.score == m.score && best.cratio == m.cratio
    {
      UpdateBest(Model(), m);
      if !m.special && m.score < best.score && m.cratio > best.cratio { GainsBeat(config.comp, best, m); }
      hide Tuner.UpdateAux, Beats;
      if !state.Stop? {
        aux := aux.(score := m.score, cratio := m.cratio);
        var scoreCoef, cratioCoef := best.score / m.score, m.cratio / best.cratio;
        var improved := Improved(config.comp, scoreCoef, cratioCoef);
        if m.special {
          improved := false;
        }
        if improved {
          best := aux;
        }
        UpdateAux(improved);
      }
    }

    /** What compressing one chunk does to the tuner. */
    method Compress(m: Measurement)
      requires Model().Safe() && m.Valid()
      modifies this
      ensures old(Model()).state.CodecFilter? ==> old(Model()).auxIndex / FILTER_SPLIT_LIMIT < |old(Model()).codecs|
      ensures Model().Safe() && Model() == old(Model()).Step(m)
      ensures old(Model()).Safe() &&
              SameButDirection(best,
                               if old(!state.Stop? && Beats(config.comp, best, m))
                               then TriedParams(old(Model())).(score := m.score, cratio := m.cratio) else old(best))
    {
      StepBest(Model(), m);
      hide Tuner.NextCparams, Tuner.Update, Tuner.Safe, Beats, TriedParams;
      ghost var t := Model();
      NextIsChosen(t);
      StepIsSafe(t, m);
      assert t.NextCparams().best == t.best && t.best.cratio > 0.0 by { BestUntilMeasured(t); }
      assert Model() == t;
      assert state.CodecFilter? ==> auxIndex / FILTER_SPLIT_LIMIT < |codecs|;
      NextCparams();
      Update(m);
    }

    /** Compressing one chunk after the other is a run. */
    method CompressAll(ms: seq<Measurement>)
      requires Model().Safe() && forall m | m in ms :: m.Valid()
      modifies this
      ensures old(Model()).Safe() && Model() == Run(old(Model()), ms)
    {
      hide Tuner.Safe, Tuner.Step;
      ghost var t := Model();
      assert ms[..0] == [];
      for i := 0 to |ms|
        invariant Model().Safe() && t.Safe() && t == old(Model())
        invariant Run(Model(), ms[i..]) == Run(t, ms)
      {
        StepIsSafe(Model(), ms[i]);
        assert ms[i..][0] == ms[i] && ms[i..][1..] == ms[i + 1..];
        Compress(ms[i]);
      }
    }
  }

  /** A tuner for a sequence of chunks: its level stays usable whatever was
      measured.  In a configuration that goes on for ever it has not stopped; in
      any other it has once the schedule is through, and then the counters of the
      schedule are in its fields. */
  method TuneAll(config: Config, context: CParams, ms: seq<Measurement>) returns (b: BTune)
    requires |config.Codecs()| > 0 && forall m | m in ms :: m.Valid()
    requires config.hint ==> 1 <= context.clevel <= MAX_CLEVEL
    ensures fresh(b)
    ensures 1 <= b.best.clevel <= MAX_CLEVEL && b.best.score > 0.0 && b.best.cratio > 0.0
    ensures b.state.CodecFilter? ==> b.auxIndex < FILTER_SPLIT_LIMIT * |b.codecs|
    ensures Init(config, context).Safe()
    ensures RunsOn(config) ==> !b.state.Stop?
    ensures !RunsOn(config) ==>
              && (!config.hint && !config.comp.CompHCR? && |ms| >= StepBound(config) ==> b.state.Stop?)
              && (|ms| >= Misses(config) + |Above(Init(config, context), ms)| ==> b.state.Stop?)
              && (b.state.Stop? ==>
                    && b.nhards == config.hards + (if config.hint then 0 else 1)
                    && b.nsofts == config.softs * (if SoftsOnlyConfig(config) then 1 else config.hards)
                    && b.nwaitings == config.hards * config.waits * (if config.softs == 0 then 1 else config.softs))
  {
    AfterAll(config, context, ms);
    hide *;
    b := new BTune(config, context);
    b.CompressAll(ms);
    ModelFields(b);
  }

  lemma ModelFields(b: BTune)
    ensures var t := b.Model();
            && t.state == b.state && t.best == b.best && t.codecs == b.codecs && t.auxIndex == b.auxIndex
            && t.nhards == b.nhards && t.nsofts == b.nsofts && t.nwaitings == b.nwaitings
  {}

  /** What a whole run leaves. */
  lemma AfterAll(config: Config, context: CParams, ms: seq<Measurement>)
    requires Starts(config, context) && forall m | m in ms :: m.Valid()
    ensures Init(config, context).Safe()
    ensures var t := Run(Init(config, context), ms);
            && 1 <= t.best.clevel <= MAX_CLEVEL && t.best.score > 0.0 && t.best.cratio > 0.0
            && (t.state.CodecFilter? ==> t.auxIndex < FILTER_SPLIT_LIMIT * |t.codecs|)
            && if RunsOn(config) then !t.state.Stop?
               else
                 && (!config.hint && !config.comp.CompHCR? && |ms| >= StepBound(config) ==> t.state.Stop?)
                 && (|ms| >= Misses(config) + |Above(Init(config, context), ms)| ==> t.state.Stop?)
                 && (t.state.Stop? ==>
                       && t.nhards == config.hards + (if config.hint then 0 else 1)
                       && t.nsofts == config.softs * (if SoftsOnlyConfig(config) then 1 else config.hards)
                       && t.nwaitings == config.hards * config.waits * (if config.softs == 0 then 1 else config.softs))
  {
    InitIsSafe(config, context);
    hide Init, Run, Above, ScheduleLength, Misses, RunsOn, Accepted, Endless;
    RunIsSafe(Init(config, context), ms);
    EveryConfiguration(config, context, ms);
    WaitsInAll(config);
    if !RunsOn(config) && !config.hint && !config.comp.CompHCR? && |ms| >= StepBound(config) {
      StopsUnlessRunsOn(config);
      WholeRun(config, context, ms);
    }
  }

  lemma StopsUnlessRunsOn(config: Config)
    requires !config.hint && !RunsOn(config)
    ensures StopsAtLast(config, config.hards)
  {
    hide Endless;
    if !config.repeat.RepeatStop? { RepeatsOrStops(config); }
  }

  lemma WaitsInAll(c: Config)
    ensures (if c.softs == 0 then c.waits else c.waits * c.softs) * c.hards ==
            c.hards * c.waits * (if c.softs == 0 then 1 else c.softs)
  {
    Reorder(c.hards, c.waits, c.softs);
  }

  lemma Reorder(a: int, b: int, c: int)
    ensures a * b * c == b * c * a
  {}

  lemma BestUntilMeasured(t: Tuner)
    requires t.Safe()
    ensures t.state.CodecFilter? ==> t.auxIndex / FILTER_SPLIT_LIMIT < |t.codecs|
    ensures t.NextCparams().best == t.best && t.best.cratio > 0.0
  {
    NextIsChosen(t);
  }
}
