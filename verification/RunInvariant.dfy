/**
 What holds in every state a run can reach, whatever signals it is sent, accepted or not.
 */
module RunInvariant {
  import opened MonitorTables
  import opened MonitorSpec

  // ----- The call path

  /** u calls v: through some local id of u's module that is, or is relocated to, v. */
  ghost predicate Calls(data: MonitorData, u: (nat, nat), v: (nat, nat))
    requires WellFormed(data)
  {
    exists g :: CallEdge(data, u.0, u.1, g) && Target(data, u.0, g) == v
  }

  /** The functions being executed, outermost first; the last one is the active function. */
  function Node(st: State, i: nat): (nat, nat)
    requires i <= |st.calls|
  {
    if i < |st.calls| then (st.calls[i].mod, st.calls[i].fn) else (st.mod, st.fn)
  }

  /** The frames and the active function form a path in the relocated call graph, from a function
      flagged Main, Init or Fini. */
  ghost predicate IsCallPath(data: MonitorData, st: State)
    requires WellFormed(data)
  {
    && var root := Node(st, 0);
    && HasFunction(data, root.0, root.1)
    && data[root.0].functions[root.1].flags in {Main, Init, Fini}
    && forall i | 0 <= i < |st.calls| :: Calls(data, Node(st, i), Node(st, i + 1))
  }

  // ----- The block stack

  ghost predicate BlockInRange(fd: FunctionData, b: nat) {
    b == FUNCTION_ENTRY_BLOCK_ID || b < fd.nbBlocks
  }

  /** s[lo..hi] is not empty, starts with the entry block, and each of its blocks but the first is
      the recorded post-dominator of the one before. */
  ghost predicate ChainBetween(fd: FunctionData, s: seq<nat>, lo: nat, hi: nat) {
    && lo < hi <= |s| && s[lo] == FUNCTION_ENTRY_BLOCK_ID
    && (forall j | lo <= j < hi :: BlockInRange(fd, s[j]))
    && forall j | lo <= j < hi - 1 ::
         s[j] < |fd.immediatePostDominator| && s[j + 1] == fd.immediatePostDominator[s[j]]
  }

  /** Where the blocks of frame i start on the block stack: where those of the frame below end. */
  function Base(calls: seq<Frame>, i: nat): nat
    requires i <= |calls|
  {
    if i == 0 then 0 else calls[i - 1].sp
  }

  /** Frame i owns the blocks from its base to its saved pointer; the last one is its curblock, and
      with tracing the others are its chain. */
  ghost predicate FrameSegment(data: MonitorData, trace: bool, calls: seq<Frame>, blocks: seq<nat>, i: nat)
    requires i < |calls|
  {
    var lo, sp := Base(calls, i), calls[i].sp;
    && HasFunction(data, calls[i].mod, calls[i].fn)
    && var fd := data[calls[i].mod].functions[calls[i].fn];
    && lo < sp <= |blocks| && BlockInRange(fd, blocks[sp - 1])
    && if trace then ChainBetween(fd, blocks, lo, sp - 1) else sp == lo + 1
  }

  /** The active function owns the rest: with tracing, the chain of its pushes, ending at topblock. */
  ghost predicate ActiveSegment(fd: FunctionData, trace: bool, st: State) {
    var lo := Base(st.calls, |st.calls|);
    && lo <= |st.blocks|
    && if trace then ChainBetween(fd, st.blocks + [st.topblock], lo, |st.blocks| + 1)
       else |st.blocks| == lo && st.topblock == 0
  }

  ghost predicate StackInv(data: MonitorData, trace: bool, st: State)
    requires HasFunction(data, st.mod, st.fn)
  {
    && var fd := data[st.mod].functions[st.fn];
    && BlockInRange(fd, st.curblock) && BlockInRange(fd, st.topblock)
    && (forall i | 0 <= i < |st.calls| :: FrameSegment(data, trace, st.calls, st.blocks, i))
    && ActiveSegment(fd, trace, st)
    && (st.phase == ExpectCall ==> st.curblock == 0 && st.topblock == 0)
  }

  ghost predicate PathInv(data: MonitorData, st: State)
    requires WellFormed(data)
  {
    && HasFunction(data, st.mod, st.fn)
    && IsCallPath(data, st)
    && (st.phase == ExpectCall ==> st.calls != [])
    && (st.phase == ExpectReturn ==> exists g :: CallEdge(data, st.mod, st.fn, g))
  }

  ghost predicate Inv(data: MonitorData, trace: bool, st: State)
    requires WellFormed(data)
  {
    if st.phase == Ready then st == INITIAL
    else PathInv(data, st) && StackInv(data, trace, st)
  }

  // ----- Every acknowledged signal keeps it

  lemma {:induction false} SamePath(data: MonitorData, st: State, next: State)
    requires WellFormed(data) && IsCallPath(data, st)
    requires next.calls == st.calls && next.mod == st.mod && next.fn == st.fn
    ensures IsCallPath(data, next)
  {
    forall i: nat | i <= |st.calls| ensures Node(next, i) == Node(st, i) {
    }
  }

  lemma {:induction false} LongerPath(data: MonitorData, st: State, next: State)
    requires WellFormed(data) && IsCallPath(data, st)
    requires |next.calls| == |st.calls| + 1 && next.calls[..|st.calls|] == st.calls
    requires next.calls[|st.calls|].mod == st.mod && next.calls[|st.calls|].fn == st.fn
    requires Calls(data, (st.mod, st.fn), (next.mod, next.fn))
    ensures IsCallPath(data, next)
  {
    forall i: nat | i <= |st.calls| ensures Node(next, i) == Node(st, i) {
      if i < |st.calls| {
        assert next.calls[i] == next.calls[..|st.calls|][i];
      }
    }
  }

  lemma {:induction false} ShorterPath(data: MonitorData, st: State, next: State)
    requires WellFormed(data) && IsCallPath(data, st)
    requires |st.calls| > 0 && next.calls == st.calls[..|st.calls| - 1]
    requires (next.mod, next.fn) == Node(st, |st.calls| - 1)
    ensures IsCallPath(data, next)
    ensures Calls(data, (next.mod, next.fn), (st.mod, st.fn))
  {
    forall i: nat | i < |st.calls| ensures Node(next, i) == Node(st, i) {
    }
    assert Calls(data, Node(st, |st.calls| - 1), Node(st, |st.calls|));
  }

  lemma {:induction false} StepKeepsPath(data: MonitorData, trace: bool, st: State, sig: Signal)
    requires WellFormed(data) && Inv(data, trace, st)
    requires Step(data, trace, st, sig).Running?
    ensures PathInv(data, Step(data, trace, st, sig).st)
  {
    var next := Step(data, trace, st, sig).st;
    match sig.event
    case Call =>
      assert CallEdge(data, st.mod, st.fn, sig.fn);
      TargetExists(data, st.mod, sig.fn);
      LongerPath(data, st, next);
    case Exit => ShorterPath(data, st, next);
    case _ =>
      if st.phase != Ready {
        SamePath(data, st, next);
      }
  }

  /** Frame i's segment depends on the frames up to i and on the blocks up to its saved pointer only. */
  lemma {:induction false} SegmentIsLocal(data: MonitorData, trace: bool, calls: seq<Frame>, blocks: seq<nat>,
                       calls': seq<Frame>, blocks': seq<nat>, i: nat)
    requires i < |calls| && FrameSegment(data, trace, calls, blocks, i)
    requires i < |calls'| && calls'[i] == calls[i] && Base(calls', i) == Base(calls, i)
    requires calls[i].sp <= |blocks'| && forall k | 0 <= k < calls[i].sp :: blocks'[k] == blocks[k]
    ensures FrameSegment(data, trace, calls', blocks', i)
  {
  }

  lemma {:induction false} EnterKeepsStack(data: MonitorData, trace: bool, st: State, sig: Signal)
    requires WellFormed(data) && Inv(data, trace, st)
    requires sig.event == Enter && Step(data, trace, st, sig).Running?
    ensures StackInv(data, trace, Step(data, trace, st, sig).st)
  {
  }

  lemma {:induction false} AfterJumpKeepsStack(data: MonitorData, trace: bool, st: State, sig: Signal)
    requires WellFormed(data) && Inv(data, trace, st)
    requires sig.event == AfterJump && Step(data, trace, st, sig).Running?
    ensures StackInv(data, trace, Step(data, trace, st, sig).st)
  {
    var next := StepAfterJump(data, trace, st, sig).st;
    forall i | 0 <= i < |st.calls| ensures FrameSegment(data, trace, next.calls, next.blocks, i) {
      SegmentIsLocal(data, trace, st.calls, st.blocks, next.calls, next.blocks, i);
    }
    if next.blocks != st.blocks {
      assert next.blocks + [next.topblock] == st.blocks + [st.topblock] + [next.topblock];
    }
  }

  /** A frame just pushed owns what was the active segment. */
  lemma {:induction false} PushedFrameSegment(data: MonitorData, trace: bool, st: State, calls: seq<Frame>,
                                              blocks: seq<nat>)
    requires HasFunction(data, st.mod, st.fn) && StackInv(data, trace, st)
    requires blocks == st.blocks + Saved(trace, st) && calls == st.calls + [Frame(st.mod, st.fn, |blocks|)]
    ensures FrameSegment(data, trace, calls, blocks, |st.calls|)
  {
    assert forall k | 0 <= k < |blocks| - 1 :: blocks[k] == (st.blocks + [st.topblock])[k];
  }

  lemma {:induction false} CallKeepsStack(data: MonitorData, trace: bool, st: State, sig: Signal)
    requires WellFormed(data) && Inv(data, trace, st)
    requires sig.event == Call && Step(data, trace, st, sig).Running?
    ensures StackInv(data, trace, Step(data, trace, st, sig).st)
  {
    var next := StepCall(data, trace, st, sig).st;
    forall i | 0 <= i < |st.calls| ensures FrameSegment(data, trace, next.calls, next.blocks, i) {
      SegmentIsLocal(data, trace, st.calls, st.blocks, next.calls, next.blocks, i);
    }
    PushedFrameSegment(data, trace, st, next.calls, next.blocks);
  }

  /** The blocks of the last frame, minus what the pops take, become the active segment again. */
  lemma {:induction false} RestoredFrameKeepsStack(data: MonitorData, trace: bool, calls: seq<Frame>,
                                                   blocks: seq<nat>, next: State)
    requires calls != [] && FrameSegment(data, trace, calls, blocks, |calls| - 1)
    requires forall i | 0 <= i < |calls| :: FrameSegment(data, trace, calls, blocks, i)
    requires var frame := calls[|calls| - 1];
             && (next.mod, next.fn) == (frame.mod, frame.fn)
             && next.phase == ExpectReturn && next.calls == calls[..|calls| - 1]
             && next.curblock == blocks[frame.sp - 1]
             && next.topblock == (if trace then blocks[frame.sp - 2] else 0)
             && next.blocks == blocks[..if trace then frame.sp - 2 else frame.sp - 1]
    ensures HasFunction(data, next.mod, next.fn) && StackInv(data, trace, next)
  {
    var n := |calls| - 1;
    assert FrameSegment(data, trace, calls, blocks, n);
    assert Base(next.calls, n) == Base(calls, n);
    forall i | 0 <= i < n ensures FrameSegment(data, trace, next.calls, next.blocks, i) {
      assert FrameSegment(data, trace, calls, blocks, i + 1);
      SpsIncrease(data, trace, calls, blocks, i, n);
      SegmentIsLocal(data, trace, calls, blocks, next.calls, next.blocks, i);
    }
    if trace {
      assert next.blocks + [next.topblock] == blocks[..calls[n].sp - 1];
    }
  }

  lemma {:induction false} SpsIncrease(data: MonitorData, trace: bool, calls: seq<Frame>, blocks: seq<nat>, i: nat,
                                       j: nat)
    requires i < j < |calls|
    requires forall k | 0 <= k < |calls| :: FrameSegment(data, trace, calls, blocks, k)
    ensures calls[i].sp <= Base(calls, j)
    decreases j
  {
    if i < j - 1 {
      assert FrameSegment(data, trace, calls, blocks, j - 1);
      SpsIncrease(data, trace, calls, blocks, i, j - 1);
    }
  }

  lemma {:induction false} ExitKeepsStack(data: MonitorData, trace: bool, st: State, sig: Signal)
    requires WellFormed(data) && Inv(data, trace, st)
    requires sig.event == Exit && Step(data, trace, st, sig).Running?
    ensures StackInv(data, trace, Step(data, trace, st, sig).st)
  {
    RestoredFrameKeepsStack(data, trace, st.calls, st.blocks, StepExit(data, trace, st, sig).st);
  }

  lemma {:induction false} StepKeepsInv(data: MonitorData, trace: bool, st: State, sig: Signal)
    requires WellFormed(data) && Inv(data, trace, st)
    requires Step(data, trace, st, sig).Running?
    ensures Inv(data, trace, Step(data, trace, st, sig).st)
  {
    StepKeepsPath(data, trace, st, sig);
    match sig.event
    case BeforeJump =>
    case AfterJump => AfterJumpKeepsStack(data, trace, st, sig);
    case Call => CallKeepsStack(data, trace, st, sig);
    case Enter => EnterKeepsStack(data, trace, st, sig);
    case Exit => ExitKeepsStack(data, trace, st, sig);
    case Returned =>
    case Malformed =>
  }

  /** Inv holds in every state in which a run waits for a signal. */
  lemma {:induction false} RunKeepsInv(data: MonitorData, trace: bool, st: State, sigs: seq<Signal>)
    requires WellFormed(data) && Inv(data, trace, st)
    requires Run(data, trace, st, sigs).Waiting?
    ensures Inv(data, trace, Run(data, trace, st, sigs).st)
    decreases |sigs|
  {
    if sigs != [] {
      StepKeepsInv(data, trace, st, sigs[0]);
      RunKeepsInv(data, trace, Step(data, trace, st, sigs[0]).st, sigs[1..]);
    }
  }

  ghost predicate Reachable(data: MonitorData, trace: bool, st: State) {
    exists sigs :: Run(data, trace, INITIAL, sigs) == Waiting(st)
  }

  lemma {:induction false} ReachableHasInv(data: MonitorData, trace: bool, st: State)
    requires WellFormed(data) && Reachable(data, trace, st)
    ensures Inv(data, trace, st)
  {
    var sigs :| Run(data, trace, INITIAL, sigs) == Waiting(st);
    RunKeepsInv(data, trace, INITIAL, sigs);
  }

  // ----- What follows

  /** At any moment the frames and the active function form a path from an entry point in the
      relocated call graph. */
  lemma {:induction false} ReachableIsCallPath(data: MonitorData, trace: bool, st: State)
    requires WellFormed(data) && Reachable(data, trace, st)
    ensures st.phase != Ready ==> IsCallPath(data, st)
  {
    ReachableHasInv(data, trace, st);
  }

  /** The only reads that can fail are those of a call-graph or control-flow row that was never
      allocated, and they do fail. */
  predicate ReadsMissingRow(data: MonitorData, st: State, sig: Signal) {
    || (&& sig.event == Call && st.phase == InFunction
        && HasFunction(data, st.mod, sig.fn)
        && st.fn < |data[st.mod].callGraph| && data[st.mod].callGraph[st.fn].None?)
    || (&& sig.event == AfterJump && st.phase == ExpectJump && InPlace(st, sig)
        && HasFunction(data, st.mod, st.fn)
        && var fd := data[st.mod].functions[st.fn];
        && sig.block < fd.nbBlocks
        && st.curblock < |fd.controlFlowGraph| && fd.controlFlowGraph[st.curblock].None?)
  }

  /** What the code relies on when it indexes its tables and pops its stacks without a check. */
  ghost predicate InBounds(data: MonitorData, trace: bool, st: State)
  {
    st.phase != Ready ==>
      && HasFunction(data, st.mod, st.fn)
      && BlockInRange(data[st.mod].functions[st.fn], st.curblock)
      && BlockInRange(data[st.mod].functions[st.fn], st.topblock)
      && (!trace ==> st.topblock == 0)
      && (st.phase == ExpectReturn ==> st.fn < |data[st.mod].callGraph| && data[st.mod].callGraph[st.fn].Some?)
      && (st.calls != [] ==>
          var frame := st.calls[|st.calls| - 1];
          && HasFunction(data, frame.mod, frame.fn)
          && (if trace then 2 else 1) <= frame.sp <= |st.blocks|)
  }

  lemma {:induction false} InvIsInBounds(data: MonitorData, trace: bool, st: State)
    requires WellFormed(data) && Inv(data, trace, st)
    ensures InBounds(data, trace, st)
  {
    if st.phase != Ready && st.calls != [] {
      assert FrameSegment(data, trace, st.calls, st.blocks, |st.calls| - 1);
    }
  }

  lemma {:induction false} InvFaultsOnMissingRows(data: MonitorData, trace: bool, st: State, sig: Signal)
    requires WellFormed(data) && Inv(data, trace, st)
    ensures Step(data, trace, st, sig).Fault? <==> ReadsMissingRow(data, st, sig)
  {
    match sig.event
    case Exit =>
      if st.phase != Ready && st.calls != [] {
        assert FrameSegment(data, trace, st.calls, st.blocks, |st.calls| - 1);
      }
    case Call =>
      if st.phase == InFunction && CallEdge(data, st.mod, st.fn, sig.fn) {
        TargetExists(data, st.mod, sig.fn);
      }
    case Returned =>
      if st.phase == ExpectReturn {
        var g :| CallEdge(data, st.mod, st.fn, g);
      }
    case _ =>
  }

  /** Current module, current function, curblock, topblock, relocations and saved heights are never
      out of range: whatever is sent, a step faults exactly when it reads a missing row. */
  lemma {:induction false} FaultsExactlyOnMissingRows(data: MonitorData, trace: bool, st: State, sig: Signal)
    requires WellFormed(data) && Reachable(data, trace, st)
    ensures Step(data, trace, st, sig).Fault? <==> ReadsMissingRow(data, st, sig)
  {
    ReachableHasInv(data, trace, st);
    InvFaultsOnMissingRows(data, trace, st, sig);
  }

  /** The row that RETURNED reads is always there, because the frame was suspended by a call. */
  lemma {:induction false} ReturnedRowIsPresent(data: MonitorData, trace: bool, st: State)
    requires WellFormed(data) && Reachable(data, trace, st) && st.phase == ExpectReturn
    ensures st.mod < |data| && st.fn < |data[st.mod].callGraph| && data[st.mod].callGraph[st.fn].Some?
  {
    ReachableHasInv(data, trace, st);
    var g :| CallEdge(data, st.mod, st.fn, g);
  }

  lemma {:induction false} ExitIsNever7(data: MonitorData, trace: bool, st: State, sig: Signal)
    requires WellFormed(data) && Reachable(data, trace, st)
    ensures StepExit(data, trace, st, sig) != Stopped(7)
  {
    ReachableHasInv(data, trace, st);
    if st.phase == InFunction && st.calls != [] {
      assert FrameSegment(data, trace, st.calls, st.blocks, |st.calls| - 1);
    }
  }

  lemma {:induction false} EnterError7(data: MonitorData, st: State, sig: Signal)
    requires st.phase == Ready ==> st == INITIAL
    ensures StepEnter(data, st, sig) == Stopped(7) <==>
            && st == INITIAL && sig.mod < |data|
            && (sig.fn < |data[sig.mod].functions| ==>
                  data[sig.mod].functions[sig.fn].flags in {Internal, External})
  {
  }

  /** Of the error exits, 7 is only ever taken by the first ENTER: the entry-point check of the last
      EXIT and the empty-block-stack check never fire. */
  lemma {:induction false} Error7IsFirstEnterOnly(data: MonitorData, trace: bool, st: State, sig: Signal)
    requires WellFormed(data) && Reachable(data, trace, st)
    ensures Step(data, trace, st, sig) == Stopped(7) <==>
            && st == INITIAL && sig.event == Enter && sig.mod < |data|
            && (sig.fn < |data[sig.mod].functions| ==>
                  data[sig.mod].functions[sig.fn].flags in {Internal, External})
  {
    match sig.event
    case Enter =>
      ReachableHasInv(data, trace, st);
      EnterError7(data, st, sig);
    case Exit =>
      ExitIsNever7(data, trace, st, sig);
    case _ =>
  }

  /** The curblock test of ENTER never fires: the other three tests decide. */
  lemma {:induction false} EnterIgnoresCurblock(data: MonitorData, trace: bool, st: State, sig: Signal)
    requires WellFormed(data) && Reachable(data, trace, st) && sig.event == Enter && st.phase != Ready
    ensures Step(data, trace, st, sig).Running? <==> st.phase == ExpectCall && InPlace(st, sig)
  {
    ReachableHasInv(data, trace, st);
  }

  /** Without tracing the block stack holds one block per suspended frame. */
  lemma {:induction false} HeightIsDepthWithoutTrace(data: MonitorData, st: State)
    requires WellFormed(data) && Reachable(data, false, st)
    ensures |st.blocks| == |st.calls| && forall i | 0 <= i < |st.calls| :: st.calls[i].sp == i + 1
  {
    ReachableHasInv(data, false, st);
    for i := 0 to |st.calls|
      invariant Base(st.calls, i) == i
      invariant forall k | 0 <= k < i :: st.calls[k].sp == k + 1
    {
      assert FrameSegment(data, false, st.calls, st.blocks, i);
    }
  }

  /** With tracing, the blocks of each suspended frame are a post-dominator chain that starts at the
      entry block, followed by the frame's curblock; those of the active function followed by topblock
      are such a chain too. */
  lemma {:induction false} SegmentsAreChainsWithTrace(data: MonitorData, st: State)
    requires WellFormed(data) && Reachable(data, true, st) && st.phase != Ready
    ensures forall i | 0 <= i < |st.calls| :: FrameSegment(data, true, st.calls, st.blocks, i)
    ensures HasFunction(data, st.mod, st.fn)
    ensures ChainBetween(data[st.mod].functions[st.fn], st.blocks + [st.topblock],
                         Base(st.calls, |st.calls|), |st.blocks| + 1)
  {
    ReachableHasInv(data, true, st);
  }
}
