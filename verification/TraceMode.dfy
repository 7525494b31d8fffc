/**
 Tracing only adds pushes to the block stack: the run with OPTION_sm_trace set and the run without
 it take the same decisions, although their block stacks have different shapes.
 */
module TraceMode {
  import opened MonitorTables
  import opened MonitorSpec
  import opened RunInvariant

  /** Frame by frame the two runs suspended the same function in the same block, wherever each of
      them stored that block. */
  ghost predicate SameFrames(on: State, off: State) {
    && |on.calls| == |off.calls|
    && forall i | 0 <= i < |on.calls| ::
         && on.calls[i].mod == off.calls[i].mod && on.calls[i].fn == off.calls[i].fn
         && 2 <= on.calls[i].sp <= |on.blocks| && 1 <= off.calls[i].sp <= |off.blocks|
         && on.blocks[on.calls[i].sp - 1] == off.blocks[off.calls[i].sp - 1]
  }

  /** Each frame lies wholly below the next one. */
  ghost predicate Separated(calls: seq<Frame>, size: nat) {
    forall i, j | 0 <= i < j < |calls| :: calls[i].sp + size <= calls[j].sp
  }

  ghost predicate Similar(on: State, off: State) {
    && on.phase == off.phase && on.mod == off.mod && on.fn == off.fn && on.curblock == off.curblock
    && SameFrames(on, off)
    && Separated(on.calls, 2) && Separated(off.calls, 1)
  }

  ghost predicate SameOutcome(on: Outcome, off: Outcome) {
    match on
    case Running(st) => off.Running? && Similar(st, off.st)
    case Stopped(error) => off == Stopped(error)
    case Fault => off.Fault?
  }

  lemma {:induction false} PushedFramesAgree(on: State, off: State, a: State, b: State, m: nat, f: nat, top: nat,
                                             cur: nat)
    requires SameFrames(on, off) && Separated(on.calls, 2) && Separated(off.calls, 1)
    requires a.blocks == on.blocks + [top, cur] && b.blocks == off.blocks + [cur]
    requires a.calls == on.calls + [Frame(m, f, |a.blocks|)]
    requires b.calls == off.calls + [Frame(m, f, |b.blocks|)]
    ensures SameFrames(a, b) && Separated(a.calls, 2) && Separated(b.calls, 1)
  {
    forall i | 0 <= i < |a.calls|
      ensures a.blocks[a.calls[i].sp - 1] == b.blocks[b.calls[i].sp - 1]
    {
    }
  }

  lemma {:induction false} PoppedFramesAgree(on: State, off: State, a: State, b: State)
    requires SameFrames(on, off) && Separated(on.calls, 2) && Separated(off.calls, 1)
    requires |on.calls| > 0
    requires a.calls == on.calls[..|on.calls| - 1] && b.calls == off.calls[..|off.calls| - 1]
    requires a.blocks == on.blocks[..on.calls[|on.calls| - 1].sp - 2]
    requires b.blocks == off.blocks[..off.calls[|off.calls| - 1].sp - 1]
    ensures SameFrames(a, b) && Separated(a.calls, 2) && Separated(b.calls, 1)
  {
    var n := |a.calls|;
    forall i | 0 <= i < n
      ensures a.calls[i].sp <= |a.blocks| && b.calls[i].sp <= |b.blocks|
    {
      assert a.calls[i] == on.calls[i] && b.calls[i] == off.calls[i];
      assert on.calls[i].sp + 2 <= on.calls[n].sp && off.calls[i].sp + 1 <= off.calls[n].sp;
    }
  }

  /** The pushes that tracing adds inside a frame do not touch the saved blocks below. */
  lemma {:induction false} ExtraPushesAgree(on: State, off: State, a: State, b: State, extra: seq<nat>)
    requires SameFrames(on, off) && a.calls == on.calls && b.calls == off.calls
    requires a.blocks == on.blocks + extra && b.blocks == off.blocks
    ensures SameFrames(a, b)
  {
  }

  lemma {:induction false} CallStaysSimilar(data: MonitorData, on: State, off: State, sig: Signal)
    requires WellFormed(data) && Inv(data, true, on) && Inv(data, false, off) && Similar(on, off)
    requires sig.event == Call
    ensures SameOutcome(Step(data, true, on, sig), Step(data, false, off, sig))
  {
    var a, b := StepCall(data, true, on, sig), StepCall(data, false, off, sig);
    if a.Running? {
      PushedFramesAgree(on, off, a.st, b.st, on.mod, on.fn, on.topblock, on.curblock);
    }
  }

  lemma {:induction false} ExitStaysSimilar(data: MonitorData, on: State, off: State, sig: Signal)
    requires WellFormed(data) && Inv(data, true, on) && Inv(data, false, off) && Similar(on, off)
    requires sig.event == Exit
    ensures SameOutcome(Step(data, true, on, sig), Step(data, false, off, sig))
  {
    InvFaultsOnMissingRows(data, true, on, sig);
    InvFaultsOnMissingRows(data, false, off, sig);
    var a, b := StepExit(data, true, on, sig), StepExit(data, false, off, sig);
    if a.Running? {
      PoppedFramesAgree(on, off, a.st, b.st);
    }
  }

  lemma {:induction false} AfterJumpStaysSimilar(data: MonitorData, on: State, off: State, sig: Signal)
    requires WellFormed(data) && Inv(data, true, on) && Inv(data, false, off) && Similar(on, off)
    requires sig.event == AfterJump
    ensures SameOutcome(Step(data, true, on, sig), Step(data, false, off, sig))
  {
    InvFaultsOnMissingRows(data, true, on, sig);
    InvFaultsOnMissingRows(data, false, off, sig);
    var a, b := StepAfterJump(data, true, on, sig), StepAfterJump(data, false, off, sig);
    if a.Running? {
      ExtraPushesAgree(on, off, a.st, b.st, a.st.blocks[|on.blocks|..]);
    }
  }

  /** The other events leave both stacks alone. */
  lemma {:induction false} PlainStepStaysSimilar(data: MonitorData, on: State, off: State, sig: Signal)
    requires WellFormed(data) && Similar(on, off)
    requires on.phase == Ready ==> on == INITIAL && off == INITIAL
    requires sig.event == BeforeJump || sig.event == Enter || sig.event == Returned || sig.event == Malformed
    ensures SameOutcome(Step(data, true, on, sig), Step(data, false, off, sig))
  {
    var a, b := Step(data, true, on, sig), Step(data, false, off, sig);
    if a.Running? {
      ExtraPushesAgree(on, off, a.st, b.st, []);
    }
  }

  lemma {:induction false} StepStaysSimilar(data: MonitorData, on: State, off: State, sig: Signal)
    requires WellFormed(data) && Inv(data, true, on) && Inv(data, false, off) && Similar(on, off)
    ensures SameOutcome(Step(data, true, on, sig), Step(data, false, off, sig))
  {
    match sig.event
    case Call => CallStaysSimilar(data, on, off, sig);
    case Exit => ExitStaysSimilar(data, on, off, sig);
    case AfterJump => AfterJumpStaysSimilar(data, on, off, sig);
    case _ => PlainStepStaysSimilar(data, on, off, sig);
  }

  ghost predicate SameVerdict(on: Verdict, off: Verdict) {
    match on
    case Waiting(st) => off.Waiting? && Similar(st, off.st)
    case Ended(error, rest) => off == Ended(error, rest)
    case Faulted => off.Faulted?
  }

  lemma {:induction false} SimilarRunsAgree(data: MonitorData, on: State, off: State, sigs: seq<Signal>)
    requires WellFormed(data) && Inv(data, true, on) && Inv(data, false, off) && Similar(on, off)
    ensures SameVerdict(Run(data, true, on, sigs), Run(data, false, off, sigs))
    decreases |sigs|
  {
    if sigs != [] {
      StepStaysSimilar(data, on, off, sigs[0]);
      var a, b := Step(data, true, on, sigs[0]), Step(data, false, off, sigs[0]);
      if a.Running? {
        StepKeepsInv(data, true, on, sigs[0]);
        StepKeepsInv(data, false, off, sigs[0]);
        SimilarRunsAgree(data, a.st, b.st, sigs[1..]);
      }
    }
  }

  /** On every stream of signals, the traced and the untraced run acknowledge the same signals, stop
      at the same one with the same error code, or both go on waiting.  The statement holds of every
      prefix, so the decisions agree one by one. */
  lemma {:induction false} TracingNeverChangesTheVerdict(data: MonitorData, sigs: seq<Signal>)
    requires WellFormed(data)
    ensures SameVerdict(Run(data, true, INITIAL, sigs), Run(data, false, INITIAL, sigs))
  {
    SimilarRunsAgree(data, INITIAL, INITIAL, sigs);
  }
}
