/** What a CODEC_FILTER phase tries: every codec with every filter, split and not
    split, one compression each (src/btune/iabtune.c). */
module BTuneCodecs {
  import opened Lists
  import opened BTuneSpec
  import opened BTuneRuns

  type Trial = (Codec, nat, nat)

  /** Codec, filter and split of the compression that led to this state. */
  function LastTrial(t: Tuner): Trial { (t.aux.codec, t.aux.filter, t.aux.split) }

  /** What the compressions of a run tried, in order. */
  function Tried(t: Tuner, ms: seq<Measurement>): seq<Trial>
    requires t.Safe() && forall m | m in ms :: m.Valid()
    decreases |ms|
  {
    if ms == [] then [] else
      StepIsSafe(t, ms[0]);
      [LastTrial(t.Step(ms[0]))] + Tried(t.Step(ms[0]), ms[1..])
  }

  /** The six trials of one codec: three filters, always split first, then never;
      BLOSCLZ is always split. */
  function SixOf(c: Codec): seq<Trial> {
    var second := SecondSplit(c);
    [(c, 0, ALWAYS_SPLIT), (c, 1, ALWAYS_SPLIT), (c, 2, ALWAYS_SPLIT), (c, 0, second), (c, 1, second), (c, 2, second)]
  }

  function SecondSplit(c: Codec): nat { if c == BLOSCLZ then ALWAYS_SPLIT else 2 }

  /** How often a phase should try a combination of a listed codec: once, and
      twice for BLOSCLZ, which never goes without the split. */
  function TimesTried(c: Codec, filter: nat, split: nat): nat {
    if filter >= 3 then 0
    else if c == BLOSCLZ then (if split == ALWAYS_SPLIT then 2 else 0)
    else if split == 1 || split == 2 then 1 else 0
  }

  /** The plan of a phase: the six trials of every codec. */
  function Plan(codecs: seq<Codec>): seq<Trial> { FlatMap(SixOf, codecs) }

  lemma {:induction false} PlanAt(t: Tuner, k: nat)
    requires k < FILTER_SPLIT_LIMIT * |t.codecs|
    ensures |Plan(t.codecs)| == FILTER_SPLIT_LIMIT * |t.codecs| && k / FILTER_SPLIT_LIMIT < |t.codecs|
    ensures Plan(t.codecs)[k] == t.Combination(k)
    decreases |t.codecs|
  {
    PlanLength(t.codecs);
    if k < FILTER_SPLIT_LIMIT {
      FirstSix(t, k);
      assert Plan(t.codecs)[k] == SixOf(t.codecs[0])[k];
    } else {
      var u := t.(codecs := t.codecs[1..]);
      PlanLength(u.codecs);
      PlanAt(u, k - FILTER_SPLIT_LIMIT);
      SameDigits(t, u, k);
      hide SixOf, Tuner.Combination;
      assert Plan(t.codecs)[k] == Plan(u.codecs)[k - FILTER_SPLIT_LIMIT];
    }
  }

  lemma FirstSix(t: Tuner, k: nat)
    requires |t.codecs| > 0 && k < FILTER_SPLIT_LIMIT
    ensures SixOf(t.codecs[0])[k] == t.Combination(k)
  {}

  /** Six positions on, the next codec with the same filter and split. */
  lemma SameDigits(t: Tuner, u: Tuner, k: nat)
    requires FILTER_SPLIT_LIMIT <= k < FILTER_SPLIT_LIMIT * |t.codecs| && u.codecs == t.codecs[1..]
    ensures k / FILTER_SPLIT_LIMIT < |t.codecs| && (k - FILTER_SPLIT_LIMIT) / FILTER_SPLIT_LIMIT < |u.codecs|
    ensures t.Combination(k) == u.Combination(k - FILTER_SPLIT_LIMIT)
  {
    var i := k / FILTER_SPLIT_LIMIT;
    assert (k - FILTER_SPLIT_LIMIT) / FILTER_SPLIT_LIMIT == i - 1 && u.codecs[i - 1] == t.codecs[i];
  }

  lemma {:induction false} PlanLength(codecs: seq<Codec>)
    ensures |Plan(codecs)| == FILTER_SPLIT_LIMIT * |codecs|
  {
    if codecs != [] { PlanLength(codecs[1..]); }
  }

  /** A step of the phase tries the combination its position stands for. */
  lemma StepTries(t: Tuner, m: Measurement)
    requires t.Safe() && t.state.CodecFilter? && m.Valid()
    ensures t.auxIndex / FILTER_SPLIT_LIMIT < |t.codecs|
    ensures LastTrial(t.Step(m)) == t.Combination(t.auxIndex)
  {
    SafeIndex(t);
    hide Improved;
  }

  lemma NextTrial(plan: seq<Trial>, k: nat, end: nat, rest: seq<Trial>)
    requires k < end <= |plan| && rest == plan[k + 1..end]
    ensures [plan[k]] + rest == plan[k..end]
  {}

  lemma TriedCons(t: Tuner, ms: seq<Measurement>)
    requires t.Safe() && ms != [] && forall m | m in ms :: m.Valid()
    ensures ms[0].Valid() && (t.state.CodecFilter? ==> t.auxIndex / FILTER_SPLIT_LIMIT < |t.codecs|)
    ensures t.Step(ms[0]).Safe() && forall m | m in ms[1..] :: m.Valid()
    ensures Tried(t, ms) == [LastTrial(t.Step(ms[0]))] + Tried(t.Step(ms[0]), ms[1..])
  {
    assert ms[0] in ms;
    StepIsSafe(t, ms[0]);
  }

  lemma TriedNothing(t: Tuner)
    requires t.Safe()
    ensures Tried(t, []) == []
  {}

  /** The first compression of a phase carries out the first entry of the plan. */
  lemma OneTrial(t: Tuner, ms: seq<Measurement>)
    requires t.Safe() && t.state.CodecFilter? && ms != [] && forall m | m in ms :: m.Valid()
    ensures ms[0].Valid() && t.auxIndex / FILTER_SPLIT_LIMIT < |t.codecs|
    ensures t.Step(ms[0]).Safe() && t.Step(ms[0]).codecs == t.codecs && forall m | m in ms[1..] :: m.Valid()
    ensures t.auxIndex < |Plan(t.codecs)| == FILTER_SPLIT_LIMIT * |t.codecs|
    ensures Tried(t, ms) == [Plan(t.codecs)[t.auxIndex]] + Tried(t.Step(ms[0]), ms[1..])
    ensures if t.auxIndex + 1 < FILTER_SPLIT_LIMIT * |t.codecs|
            then t.Step(ms[0]).state.CodecFilter? && t.Step(ms[0]).auxIndex == t.auxIndex + 1
            else !t.Step(ms[0]).state.CodecFilter?
  {
    TriedCons(t, ms);
    StepTries(t, ms[0]);
    CodecPhaseStep(t, ms[0]);
    PlanAt(t, t.auxIndex);
  }

  /** A phase carries out its plan, position by position. */
  lemma {:induction false} PhaseFollowsPlan(t: Tuner, ms: seq<Measurement>)
    requires t.Safe() && t.state.CodecFilter? && forall m | m in ms :: m.Valid()
    requires t.auxIndex + |ms| <= FILTER_SPLIT_LIMIT * |t.codecs|
    ensures |Plan(t.codecs)| == FILTER_SPLIT_LIMIT * |t.codecs|
    ensures Tried(t, ms) == Plan(t.codecs)[t.auxIndex..t.auxIndex + |ms|]
    decreases |ms|
  {
    assert t.best.cratio > 0.0;
    hide *;
    PlanLength(t.codecs);
    if ms == [] {
      TriedNothing(t);
    } else {
      OneTrial(t, ms);
      var k, plan, u, rest := t.auxIndex, Plan(t.codecs), t.Step(ms[0]), ms[1..];
      if u.state.CodecFilter? {
        PhaseFollowsPlan(u, rest);
        assert u.auxIndex == k + 1 && u.auxIndex + |rest| == k + |ms|;
      } else {
        TriedNothing(u);
        assert rest == [];
      }
      NextTrial(plan, k, k + |ms|, Tried(u, rest));
    }
  }

  ghost predicate DistinctCodecs(codecs: seq<Codec>) { forall i, j | 0 <= i < j < |codecs| :: codecs[i] != codecs[j] }

  /** The list a tuner starts with names no codec twice, and it never changes. */
  lemma InitCodecsDistinct(config: Config, context: CParams)
    requires |config.Codecs()| > 0
    ensures DistinctCodecs(Init(config, context).codecs)
  {
    ListDistinct(config);
    hide Config.Codecs;
    InitCodecs(config, context);
  }

  /** The modes in which a codec is tried without being hinted at. */
  function Modes(c: Codec): set<CompMode> {
    match c
    case ZSTD => {CompHCR}
    case ZLIB => {CompHCR}
    case BLOSCLZ => {CompBalanced}
    case _ => {CompHSP, CompBalanced}
  }

  /** Which codecs the list of a tuner names: those of the compression mode that
      are there, LZ4HC only where decompression counts, and the hinted one.  LZ4
      comes first wherever it is tried, and ZSTD before ZLIB. */
  lemma OfferedExactly(config: Config, context: CParams, c: Codec)
    requires |config.Codecs()| > 0
    ensures c in Init(config, context).codecs <==>
              || (config.hint && c == context.codec)
              || (config.comp in Modes(c) && (c == ZSTD ==> config.hasZstd) && (c == ZLIB ==> config.hasZlib) &&
                  (c == LZ4HC ==> config.perf.PerfDecomp?))
    ensures Init(config, context).codecs[0] ==
            if !config.comp.CompHCR? then LZ4 else if config.hasZstd then ZSTD else ZLIB
  {
    InitCodecs(config, context);
    ListOffers(config, c);
    hide Init, Config.Codecs;
  }

  lemma ListOffers(config: Config, c: Codec)
    requires |config.Codecs()| > 0
    ensures c in config.Codecs() <==>
              config.comp in Modes(c) && (c == ZSTD ==> config.hasZstd) && (c == ZLIB ==> config.hasZlib) &&
              (c == LZ4HC ==> config.perf.PerfDecomp?)
    ensures config.Codecs()[0] == if !config.comp.CompHCR? then LZ4 else if config.hasZstd then ZSTD else ZLIB
  {}

  lemma ListDistinct(config: Config)
    ensures DistinctCodecs(config.Codecs())
  {}

  lemma InitCodecs(config: Config, context: CParams)
    requires |config.Codecs()| > 0
    ensures Init(config, context).codecs ==
            config.Codecs() + if config.hint && context.codec !in config.Codecs() then [context.codec] else []
  {
    hide Config.Codecs;
  }

  lemma {:induction false} CountOfDistinct(codecs: seq<Codec>, c: Codec)
    requires DistinctCodecs(codecs)
    ensures multiset(codecs)[c] == if c in codecs then 1 else 0
  {
    if codecs != [] {
      assert codecs == [codecs[0]] + codecs[1..];
      CountOfDistinct(codecs[1..], c);
    }
  }

  lemma CountCons(x: Trial, rest: seq<Trial>, u: Trial)
    ensures multiset([x] + rest)[u] == (if x == u then 1 else 0) + multiset(rest)[u]
  {}

  lemma CountThree(x: Trial, y: Trial, z: Trial, rest: seq<Trial>, u: Trial)
    ensures multiset([x, y, z] + rest)[u] ==
            (if x == u then 1 else 0) + (if y == u then 1 else 0) + (if z == u then 1 else 0) + multiset(rest)[u]
  {
    CountCons(z, rest, u);
    CountCons(y, [z] + rest, u);
    CountCons(x, [y] + ([z] + rest), u);
    assert [x, y, z] + rest == [x] + ([y] + ([z] + rest));
  }

  /** The three filters with one way of splitting. */
  function HalfOf(c: Codec, split: nat): seq<Trial> { [(c, 0, split), (c, 1, split), (c, 2, split)] }

  lemma CountHalf(c: Codec, s: nat, filter: nat, split: nat)
    ensures multiset(HalfOf(c, s))[(c, filter, split)] == if filter < 3 && split == s then 1 else 0
  {
    CountThree((c, 0, s), (c, 1, s), (c, 2, s), [], (c, filter, split));
    assert HalfOf(c, s) + [] == HalfOf(c, s);
  }

  lemma SixIsTwoHalves(c: Codec)
    ensures SixOf(c) == HalfOf(c, ALWAYS_SPLIT) + HalfOf(c, SecondSplit(c))
  {}

  /** How often one codec's six trials name a combination. */
  lemma CountOfSix(c: Codec, filter: nat, split: nat)
    ensures multiset(SixOf(c))[(c, filter, split)] == TimesTried(c, filter, split)
  {
    hide SixOf, HalfOf;
    SixIsTwoHalves(c);
    CountHalf(c, ALWAYS_SPLIT, filter, split);
    CountHalf(c, SecondSplit(c), filter, split);
    CountOfAppend(HalfOf(c, ALWAYS_SPLIT), HalfOf(c, SecondSplit(c)), (c, filter, split));
  }

  lemma PlanCounts(codecs: seq<Codec>, c: Codec, filter: nat, split: nat)
    requires DistinctCodecs(codecs)
    ensures multiset(Plan(codecs))[(c, filter, split)] == if c in codecs then TimesTried(c, filter, split) else 0
  {
    forall d | d != c ensures (c, filter, split) !in SixOf(d) {}
    CountOfDistinct(codecs, c);
    CountOfSix(c, filter, split);
    hide SixOf, DistinctCodecs;
    FlatMapCount(SixOf, codecs, (c, filter, split), c);
    NoneOrOne(multiset(codecs)[c], multiset(SixOf(c))[(c, filter, split)]);
  }

  /** A whole phase carries out the whole plan. */
  lemma WholePhase(t: Tuner, ms: seq<Measurement>)
    requires t.Safe() && t.state.CodecFilter? && t.auxIndex == 0 && forall m | m in ms :: m.Valid()
    requires |ms| == FILTER_SPLIT_LIMIT * |t.codecs|
    ensures Tried(t, ms) == Plan(t.codecs)
  {
    PhaseFollowsPlan(t, ms);
    hide *;
    var plan := Plan(t.codecs);
    assert plan[0..|plan|] == plan;
  }

  /** Main result: a whole phase tries every codec of the list with every filter,
      split and not split, exactly once; BLOSCLZ, which is always split, twice
      with every filter; and nothing else. */
  lemma PhaseTriesEachOnce(t: Tuner, ms: seq<Measurement>, c: Codec, filter: nat, split: nat)
    requires t.Safe() && t.state.CodecFilter? && t.auxIndex == 0 && DistinctCodecs(t.codecs)
    requires |ms| == FILTER_SPLIT_LIMIT * |t.codecs| && forall m | m in ms :: m.Valid()
    ensures multiset(Tried(t, ms))[(c, filter, split)] == if c in t.codecs then TimesTried(c, filter, split) else 0
  {
    hide Plan, Tried, Tuner.Safe, DistinctCodecs;
    WholePhase(t, ms);
    PlanCounts(t.codecs, c, filter, split);
  }
}
