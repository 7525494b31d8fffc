/**
 A call is undone exactly by the EXIT that matches it.  The signals in between are arbitrary as long
 as the monitor acknowledges them and the call's frame is not popped: they need not be the start of
 an accepted run.
 */
module FrameRestoration {
  import opened MonitorTables
  import opened MonitorSpec
  import opened RunInvariant

  /** The monitor acknowledges sigs, and the call stack has at least depth frames before each of them. */
  predicate StaysDeep(data: MonitorData, trace: bool, st: State, sigs: seq<Signal>, depth: nat)
    decreases |sigs|
  {
    sigs != [] ==>
      && |st.calls| >= depth
      && Step(data, trace, st, sigs[0]).Running?
      && StaysDeep(data, trace, Step(data, trace, st, sigs[0]).st, sigs[1..], depth)
  }

  /** The frames and the blocks that stood when the call had just been made are still in place. */
  ghost predicate Protects(st: State, calls: seq<Frame>, blocks: seq<nat>) {
    && 0 < |calls| <= |st.calls| && st.calls[..|calls|] == calls
    && calls[|calls| - 1].sp == |blocks| <= |st.blocks| && st.blocks[..|blocks|] == blocks
  }

  lemma {:induction false} ExitProtects(data: MonitorData, trace: bool, st: State, sig: Signal, calls: seq<Frame>,
                                        blocks: seq<nat>)
    requires WellFormed(data) && Inv(data, trace, st) && Protects(st, calls, blocks)
    requires sig.event == Exit && Step(data, trace, st, sig).Running? && |st.calls| > |calls|
    ensures Protects(Step(data, trace, st, sig).st, calls, blocks)
  {
    var next := StepExit(data, trace, st, sig).st;
    var n := |st.calls| - 1;
    assert next.calls[..|calls|] == st.calls[..|calls|];
    assert st.calls[|calls| - 1] == calls[|calls| - 1];
    SpsIncrease(data, trace, st.calls, st.blocks, |calls| - 1, n);
    assert FrameSegment(data, trace, st.calls, st.blocks, n);
    assert next.blocks[..|blocks|] == st.blocks[..|blocks|];
  }

  lemma {:induction false} StepProtects(data: MonitorData, trace: bool, st: State, sig: Signal, calls: seq<Frame>,
                                        blocks: seq<nat>)
    requires WellFormed(data) && Inv(data, trace, st) && Protects(st, calls, blocks)
    requires Step(data, trace, st, sig).Running?
    requires sig.event == Exit ==> |st.calls| > |calls|
    ensures Protects(Step(data, trace, st, sig).st, calls, blocks)
  {
    var next := Step(data, trace, st, sig).st;
    match sig.event
    case Exit => ExitProtects(data, trace, st, sig, calls, blocks);
    case Call =>
      assert next.calls[..|calls|] == st.calls[..|calls|];
      assert next.blocks[..|blocks|] == st.blocks[..|blocks|];
    case AfterJump =>
      assert next.blocks[..|blocks|] == st.blocks[..|blocks|];
    case _ =>
  }

  /** The last EXIT of a protected stretch finds the frame and the blocks as the call left them. */
  lemma {:induction false} LastExit(data: MonitorData, trace: bool, st: State, sigs: seq<Signal>,
                                    calls: seq<Frame>, blocks: seq<nat>)
    returns (end: State, exit: Signal)
    requires WellFormed(data) && Inv(data, trace, st) && Protects(st, calls, blocks)
    requires StaysDeep(data, trace, st, sigs, |calls|)
    requires Run(data, trace, st, sigs).Waiting? && |Run(data, trace, st, sigs).st.calls| < |calls|
    ensures Inv(data, trace, end) && Protects(end, calls, blocks) && end.calls == calls
    ensures exit.event == Exit && Step(data, trace, end, exit) == Running(Run(data, trace, st, sigs).st)
    decreases |sigs|
  {
    var next := Step(data, trace, st, sigs[0]).st;
    if sigs[0].event == Exit && |st.calls| == |calls| {
      end, exit := st, sigs[0];
      assert st.calls == calls;
      assert sigs[1..] == [];
    } else {
      StepProtects(data, trace, st, sigs[0], calls, blocks);
      StepKeepsInv(data, trace, st, sigs[0]);
      end, exit := LastExit(data, trace, next, sigs[1..], calls, blocks);
    }
  }

  /** Module, function, curblock, topblock, call stack and block stack after the matching EXIT are
      those of just before the CALL, in both modes, however many blocks were pushed in between. */
  lemma {:induction false} CallIsUndone(data: MonitorData, trace: bool, st: State, call: Signal, sigs: seq<Signal>)
    requires WellFormed(data) && Reachable(data, trace, st)
    requires call.event == Call && Step(data, trace, st, call).Running?
    requires StaysDeep(data, trace, Step(data, trace, st, call).st, sigs, |st.calls| + 1)
    requires var v := Run(data, trace, Step(data, trace, st, call).st, sigs);
             v.Waiting? && |v.st.calls| == |st.calls|
    ensures Run(data, trace, Step(data, trace, st, call).st, sigs) == Waiting(st.(phase := ExpectReturn))
  {
    ReachableHasInv(data, trace, st);
    StepKeepsInv(data, trace, st, call);
    var callee := StepCall(data, trace, st, call).st;
    assert callee.calls[..|callee.calls|] == callee.calls && callee.blocks[..|callee.blocks|] == callee.blocks;
    var end, exit := LastExit(data, trace, callee, sigs, callee.calls, callee.blocks);
    ExitUndoes(data, trace, st, callee, end, exit);
  }

  lemma {:induction false} ExitUndoes(data: MonitorData, trace: bool, st: State, callee: State, end: State,
                                      exit: Signal)
    requires WellFormed(data) && Inv(data, trace, st) && st.phase == InFunction
    requires callee.blocks == st.blocks + Saved(trace, st)
    requires callee.calls == st.calls + [Frame(st.mod, st.fn, |callee.blocks|)]
    requires Inv(data, trace, end) && Protects(end, callee.calls, callee.blocks) && end.calls == callee.calls
    requires exit.event == Exit && Step(data, trace, end, exit).Running?
    ensures Step(data, trace, end, exit) == Running(st.(phase := ExpectReturn))
  {
    var after := StepExit(data, trace, end, exit).st;
    var sp := |callee.blocks|;
    assert forall k | 0 <= k < sp :: end.blocks[k] == callee.blocks[k];
    assert after.blocks == st.blocks;
    assert after.calls == st.calls;
    assert !trace ==> end.topblock == 0 && st.topblock == 0;
  }
}
