/** The phases of the tuner under every setting of the four compile-time switches
    (src/btune/iabtune.c): which phases a run can reach, and that under the
    switches of the library these are the four of BTuneSpec. */
module BTunePhases {
  import opened BTuneSpec
  import opened BTuneRuns

  /** Every state that iabtune.h declares. */
  datatype Phase = CodecFilterPhase | ShufflePhase | ThreadsPhase | ClevelPhase | BlockPhase | MemcpyPhase
                 | WaitingPhase | StopPhase

  /** The BTUNE_DISABLE_ switches, and what else the order of the phases depends on. */
  datatype Switches = Switches(noShuffle: bool, noBlock: bool, noMemcpy: bool, noThreads: bool,
                               hsp: bool, oneThread: bool)

  /** What one compression lets update_aux decide: whether the phase is over,
      whether the shuffle size can be tuned, and the readapt that comes next. */
  datatype Event = Event(over: bool, shuffles: bool, readapt: Phase)
  {
    predicate Valid() { readapt in {CodecFilterPhase, ClevelPhase, WaitingPhase, StopPhase} }
  }

  /** Threads are tuned only if there is more than one. */
  function OrLevels(w: Switches, p: Phase): Phase {
    if p == ThreadsPhase && w.oneThread then ClevelPhase else p
  }

  function AfterLevels(w: Switches): Phase {
    if !w.noBlock then BlockPhase else if !w.noMemcpy then MemcpyPhase else WaitingPhase
  }

  /** The switch statement of update_aux. */
  function AfterPhase(w: Switches, p: Phase, e: Event): Phase {
    match p
    case CodecFilterPhase =>
      if !e.over then p
      else if w.noShuffle then OrLevels(w, if w.noThreads then ClevelPhase else ThreadsPhase)
      else OrLevels(w, if e.shuffles then ShufflePhase else ThreadsPhase)
    case ShufflePhase =>
      if !e.over then p else OrLevels(w, if w.noThreads then ClevelPhase else ThreadsPhase)
    case ThreadsPhase => if e.over then ClevelPhase else p
    case ClevelPhase => if e.over then AfterLevels(w) else p
    case BlockPhase =>
      if !e.over then p else if w.hsp && !w.noMemcpy then MemcpyPhase else WaitingPhase
    case MemcpyPhase => WaitingPhase
    case WaitingPhase => p
    case StopPhase => p
  }

  /** update_aux: process_waiting_state picks the next readapt. */
  function NextPhase(w: Switches, p: Phase, e: Event): Phase {
    if AfterPhase(w, p, e) == WaitingPhase then e.readapt else AfterPhase(w, p, e)
  }

  function PhaseAfter(w: Switches, p: Phase, es: seq<Event>): Phase
    decreases |es|
  {
    if es == [] then p else PhaseAfter(w, NextPhase(w, p, es[0]), es[1..])
  }

  predicate AllEvents(es: seq<Event>) { forall e | e in es :: e.Valid() }

  /** A phase some run from the start of a hard readapt gets to. */
  ghost predicate Reachable(w: Switches, p: Phase) {
    exists es :: AllEvents(es) && PhaseAfter(w, CodecFilterPhase, es) == p
  }

  /** The exact answer.  The switch for threads does not keep that phase out by
      itself: with the shuffle size switched on it is entered all the same. */
  predicate InUse(w: Switches, p: Phase) {
    match p
    case ShufflePhase => !w.noShuffle
    case ThreadsPhase => !w.oneThread && !(w.noShuffle && w.noThreads)
    case BlockPhase => !w.noBlock
    case MemcpyPhase => !w.noMemcpy && (w.noBlock || w.hsp)
    case _ => true
  }

  lemma StaysInUse(w: Switches, p: Phase, e: Event)
    requires InUse(w, p) && e.Valid()
    ensures InUse(w, NextPhase(w, p, e))
  {}

  lemma {:induction false} RunStaysInUse(w: Switches, p: Phase, es: seq<Event>)
    requires InUse(w, p) && AllEvents(es)
    ensures InUse(w, PhaseAfter(w, p, es))
    decreases |es|
  {
    if es != [] {
      StaysInUse(w, p, es[0]);
      RunStaysInUse(w, NextPhase(w, p, es[0]), es[1..]);
    }
  }

  lemma {:induction false} OneMoreEvent(w: Switches, p: Phase, es: seq<Event>, e: Event)
    ensures PhaseAfter(w, p, es + [e]) == NextPhase(w, PhaseAfter(w, p, es), e)
    decreases |es|
  {
    if es == [] {
      assert [e][1..] == [];
    } else {
      assert (es + [e])[1..] == es[1..] + [e];
      OneMoreEvent(w, NextPhase(w, p, es[0]), es[1..], e);
    }
  }

  /** The levels are tuned under all switches. */
  lemma ToLevels(w: Switches) returns (es: seq<Event>)
    ensures AllEvents(es) && PhaseAfter(w, CodecFilterPhase, es) == ClevelPhase
  {
    var over := Event(true, false, StopPhase);
    OneMoreEvent(w, CodecFilterPhase, [], over);
    OneMoreEvent(w, CodecFilterPhase, [over], over);
    es := if PhaseAfter(w, CodecFilterPhase, [over]) == ClevelPhase then [over] else [over] + [over];
  }

  /** What comes after the levels, with every phase over at once. */
  lemma PastLevels(w: Switches, p: Phase) returns (es: seq<Event>)
    requires InUse(w, p) && p in {BlockPhase, MemcpyPhase, WaitingPhase, StopPhase}
    ensures AllEvents(es) && PhaseAfter(w, CodecFilterPhase, es) == p
  {
    var over := Event(true, false, if p == WaitingPhase then p else StopPhase);
    es := ToLevels(w);
    OneMoreEvent(w, CodecFilterPhase, es, over);
    es := es + [over];
    if PhaseAfter(w, CodecFilterPhase, es) != p {
      OneMoreEvent(w, CodecFilterPhase, es, over);
      es := es + [over];
    }
    if PhaseAfter(w, CodecFilterPhase, es) != p {
      OneMoreEvent(w, CodecFilterPhase, es, over);
      es := es + [over];
    }
  }

  /** Main result: the phases a run can reach are exactly those in use. */
  lemma ReachableExactly(w: Switches, p: Phase)
    ensures Reachable(w, p) <==> InUse(w, p)
  {
    if InUse(w, p) {
      var es := Leads(w, p);
      assert AllEvents(es);
    }
    forall es | AllEvents(es) ensures InUse(w, PhaseAfter(w, CodecFilterPhase, es)) {
      RunStaysInUse(w, CodecFilterPhase, es);
    }
  }

  lemma Leads(w: Switches, p: Phase) returns (es: seq<Event>)
    requires InUse(w, p)
    ensures AllEvents(es) && PhaseAfter(w, CodecFilterPhase, es) == p
  {
    match p
    case CodecFilterPhase => es := [];
    case ShufflePhase =>
      OneMoreEvent(w, CodecFilterPhase, [], Event(true, true, StopPhase));
      es := [Event(true, true, StopPhase)];
    case ThreadsPhase =>
      OneMoreEvent(w, CodecFilterPhase, [], Event(true, false, StopPhase));
      es := [Event(true, false, StopPhase)];
    case ClevelPhase => es := ToLevels(w);
    case _ => es := PastLevels(w, p);
  }

  // ---------------------------------------------------------------------
  // The switches of the library

  /** iabtune.c disables all four. */
  function Library(hsp: bool, oneThread: bool): Switches { Switches(true, true, true, true, hsp, oneThread) }

  function PhaseOf(s: State): Phase {
    match s
    case CodecFilter => CodecFilterPhase
    case Clevel => ClevelPhase
    case Waiting => WaitingPhase
    case Stop => StopPhase
  }

  /** Under them the reachable phases are the states of BTuneSpec. */
  lemma LibraryPhases(hsp: bool, oneThread: bool, p: Phase)
    ensures Reachable(Library(hsp, oneThread), p) <==> exists s: State :: PhaseOf(s) == p
  {
    ReachableExactly(Library(hsp, oneThread), p);
    assert PhaseOf(CodecFilter) == CodecFilterPhase && PhaseOf(Clevel) == ClevelPhase;
    assert PhaseOf(Waiting) == WaitingPhase && PhaseOf(Stop) == StopPhase;
  }

  /** What a measurement means for the phases. */
  ghost function EventOf(t: Tuner, m: Measurement): (e: Event)
    requires t.Safe() && m.Valid()
    ensures e.Valid()
  {
    StepIsSafe(t, m);
    var over := match t.state
                case CodecFilter => t.auxIndex + 1 == FILTER_SPLIT_LIMIT * |t.codecs|
                case Clevel => var (v, improved) := Measured(t, m); ClevelOver(v, improved)
                case _ => false;
    Event(over, false, PhaseOf(t.Step(m).state))
  }

  /** A step of the tuner is a step of its phases. */
  lemma StepIsPhase(t: Tuner, m: Measurement, hsp: bool, oneThread: bool)
    requires t.Safe() && m.Valid()
    ensures t.state.CodecFilter? ==> t.auxIndex / FILTER_SPLIT_LIMIT < |t.codecs|
    ensures PhaseOf(t.Step(m).state) == NextPhase(Library(hsp, oneThread), PhaseOf(t.state), EventOf(t, m))
  {
    StepIsSafe(t, m);
    match t.state
    case CodecFilter => CodecPhaseStep(t, m);
    case Clevel =>
      ClevelUpdate(t, m);
    case Waiting =>
    case Stop =>
      StoppedStays(t, m);
  }

  ghost function Events(t: Tuner, ms: seq<Measurement>): (es: seq<Event>)
    requires t.Safe() && forall m | m in ms :: m.Valid()
    decreases |ms|
  {
    if ms == [] then [] else
      StepIsSafe(t, ms[0]);
      [EventOf(t, ms[0])] + Events(t.Step(ms[0]), ms[1..])
  }

  /** Every run of BTuneSpec is a run of the phases under the library's switches. */
  lemma {:induction false} RunIsPhases(t: Tuner, ms: seq<Measurement>, hsp: bool, oneThread: bool)
    requires t.Safe() && forall m | m in ms :: m.Valid()
    ensures AllEvents(Events(t, ms))
    ensures PhaseOf(Run(t, ms).state) == PhaseAfter(Library(hsp, oneThread), PhaseOf(t.state), Events(t, ms))
    decreases |ms|
  {
    if ms != [] {
      assert ms[0] in ms;
      StepIsSafe(t, ms[0]);
      StepIsPhase(t, ms[0], hsp, oneThread);
      hide Tuner.Step, Tuner.Safe, EventOf, NextPhase;
      RunIsPhases(t.Step(ms[0]), ms[1..], hsp, oneThread);
    }
  }
}
