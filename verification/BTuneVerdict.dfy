/** Which measurements are accepted, and what an accepted one leaves behind
    (has_improved and iabtune_update in src/btune/iabtune.c). */
module BTuneVerdict {
  import opened BTuneSpec
  import opened BTuneRuns

  /** What the ratio has to reach for a given score. */
  datatype Need = Ratio(above: real) | Hopeless

  /** The ratio coefficient a measurement must exceed, by its score coefficient:
      the worse the score, the better the ratio has to be. */
  function Needed(comp: CompMode, score: real): Need {
    match comp
    case CompHSP =>
      if score > 2.0 then Ratio(0.5)
      else if score > 1.3 then Ratio(0.67)
      else if score > 1.0 then Ratio(1.0)
      else if score > 0.7 then Ratio(2.0)
      else Hopeless
    case CompBalanced =>
      if score > 1.0 then Ratio(1.0)
      else if score > 0.8 then Ratio(1.1)
      else if score > 0.5 then Ratio(1.3)
      else Hopeless
    case CompHCR => Ratio(1.0)
  }

  predicate Meets(need: Need, ratio: real) { need.Ratio? && ratio > need.above }

  /** The verdict, mode by mode, is that staircase. */
  lemma VerdictExactly(comp: CompMode, score: real, ratio: real)
    ensures Improved(comp, score, ratio) <==> Meets(Needed(comp, score), ratio)
  {}

  /** A gain in both is accepted in every mode. */
  lemma BetterInBoth(comp: CompMode, score: real, ratio: real)
    requires score > 1.0 && ratio > 1.0
    ensures Improved(comp, score, ratio)
  {}

  /** More of either never turns acceptance into rejection. */
  lemma UpwardClosed(comp: CompMode, score: real, ratio: real, score': real, ratio': real)
    requires Improved(comp, score, ratio) && score <= score' && ratio <= ratio'
    ensures Improved(comp, score', ratio')
  {}

  /** A loss in both is rejected in every mode. */
  lemma WorseInBoth(comp: CompMode, score: real, ratio: real)
    requires score <= 1.0 && ratio <= 1.0
    ensures !Improved(comp, score, ratio)
  {}

  /** What a measurement takes to be accepted by a tuner with this best result. */
  predicate Beats(comp: CompMode, best: CParams, m: Measurement)
    requires m.Valid() && best.cratio > 0.0
  {
    !m.special && Meets(Needed(comp, best.score / m.score), m.cratio / best.cratio)
  }

  /** A smaller score and a larger ratio than the best always do. */
  lemma GainsBeat(comp: CompMode, best: CParams, m: Measurement)
    requires m.Valid() && best.cratio > 0.0
    requires !m.special && m.score < best.score && m.cratio > best.cratio
    ensures Beats(comp, best, m)
  {
    AboveOne(best.score, m.score);
    AboveOne(m.cratio, best.cratio);
  }

  lemma AboveOne(a: real, b: real)
    requires a > b > 0.0
    ensures a / b > 1.0
  {
    var q := a / b;
    assert q * b == a;
    if q <= 1.0 { AtMost(q, b); }
  }

  lemma AtMost(q: real, b: real)
    requires q <= 1.0 && b > 0.0
    ensures q * b <= b
  {
    assert (1.0 - q) * b >= 0.0;
  }

  /** The same parameters and result, whatever the direction of the levels. */
  predicate SameButDirection(p: CParams, q: CParams) { p.(increasing := q.increasing) == q }

  /** The parameters a compression tries. */
  function TriedParams(t: Tuner): CParams
    requires t.Safe()
  {
    NextIsChosen(t);
    t.NextCparams().aux
  }

  lemma ProcessKeepsBest(t: Tuner)
    ensures SameButDirection(t.ProcessWaiting().best, t.best)
  {
    hide Due, Tuner.HasEndedClevel;
    match t.readaptFrom
    case Hard =>
    case Soft =>
    case Wait =>
  }

  lemma UpdateAuxKeepsBest(t: Tuner, improved: bool)
    ensures SameButDirection(t.UpdateAux(improved).best, t.best)
  {
    hide Tuner.ProcessWaiting, Tuner.HasEndedClevel;
    forall u: Tuner ensures SameButDirection(u.ProcessWaiting().best, u.best) {
      ProcessKeepsBest(u);
    }
  }

  /** After a compression the best is what was just tried, with its result, if the
      measurement beats the old best, and the old best otherwise. */
  lemma StepBest(t: Tuner, m: Measurement)
    requires t.Safe() && m.Valid()
    ensures t.state.CodecFilter? ==> t.auxIndex / FILTER_SPLIT_LIMIT < |t.codecs|
    ensures Accepts(t, m) <==> !t.state.Stop? && Beats(t.config.comp, t.best, m)
    ensures SameButDirection(t.Step(m).best,
                             if !t.state.Stop? && Beats(t.config.comp, t.best, m)
                             then TriedParams(t).(score := m.score, cratio := m.cratio) else t.best)
  {
    NextIsChosen(t);
    VerdictExactly(t.config.comp, t.best.score / m.score, m.cratio / t.best.cratio);
    hide Tuner.UpdateAux, Improved, Needed;
    if !t.state.Stop? {
      UpdateAuxKeepsBest(Measured(t, m).0, Measured(t, m).1);
    }
  }

  /** The same for iabtune_update alone: `aux` holds what was tried. */
  lemma UpdateBest(t: Tuner, m: Measurement)
    requires m.Valid() && t.best.cratio > 0.0
    ensures SameButDirection(t.Update(m).best,
                             if !t.state.Stop? && Beats(t.config.comp, t.best, m)
                             then t.aux.(score := m.score, cratio := m.cratio) else t.best)
  {
    VerdictExactly(t.config.comp, t.best.score / m.score, m.cratio / t.best.cratio);
    hide Tuner.UpdateAux, Improved, Needed;
    if !t.state.Stop? {
      var u := t.(aux := t.aux.(score := m.score, cratio := m.cratio));
      UpdateAuxKeepsBest(if u.Wins(m) then u.(best := u.aux) else u, u.Wins(m));
    }
  }
}
