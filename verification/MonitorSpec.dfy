/**
 What one signal does to the monitor, and what a stream of signals does: the meaning of the loop
 of monitor/src/monitor_run.c, stated on values.  The stacks are sequences, and a saved stack
 pointer is the height the block stack had.
 */
module MonitorSpec {
  import opened MonitorTables

  datatype Event = BeforeJump | AfterJump | Call | Enter | Exit | Returned | Malformed

  datatype Signal = Signal(event: Event, mod: nat, fn: nat, block: nat)

  datatype Phase = Ready | InFunction | ExpectCall | ExpectReturn | ExpectJump

  datatype Frame = Frame(mod: nat, fn: nat, sp: nat)

  datatype State = State(
    phase: Phase, mod: nat, fn: nat, curblock: nat, topblock: nat, calls: seq<Frame>, blocks: seq<nat>)

  const INITIAL := State(Ready, 0, 0, 0, 0, [], [])

  /** Fault is a read the program cannot make: through a missing row, past a table or below a stack. */
  datatype Outcome = Running(st: State) | Stopped(error: nat) | Fault

  function Step(data: MonitorData, trace: bool, st: State, sig: Signal): Outcome {
    match sig.event
    case BeforeJump => StepBeforeJump(st, sig)
    case AfterJump => StepAfterJump(data, trace, st, sig)
    case Call => StepCall(data, trace, st, sig)
    case Enter => StepEnter(data, st, sig)
    case Exit => StepExit(data, trace, st, sig)
    case Returned => StepReturned(data, st, sig)
    case Malformed => Stopped(5)
  }

  predicate InPlace(st: State, sig: Signal) {
    st.mod == sig.mod && st.fn == sig.fn
  }

  function StepBeforeJump(st: State, sig: Signal): Outcome {
    if st.phase != InFunction || !InPlace(st, sig) || st.curblock != sig.block then Stopped(4)
    else Running(st.(phase := ExpectJump))
  }

  function StepAfterJump(data: MonitorData, trace: bool, st: State, sig: Signal): Outcome {
    if st.phase != ExpectJump || !InPlace(st, sig) then Stopped(4)
    else if !HasFunction(data, st.mod, st.fn) then Fault
    else
      var fd := data[st.mod].functions[st.fn];
      if sig.block >= fd.nbBlocks then Stopped(4)
      else if !Readable(fd.controlFlowGraph, st.curblock, sig.block) then Fault
      else if !Edge(fd.controlFlowGraph, st.curblock, sig.block) then Stopped(4)
      else if trace && st.topblock >= |fd.immediatePostDominator| then Fault
      else if trace && fd.immediatePostDominator[st.topblock] == sig.block then
        Running(st.(phase := InFunction, curblock := sig.block, topblock := sig.block,
          blocks := st.blocks + [st.topblock]))
      else
        Running(st.(phase := InFunction, curblock := sig.block))
  }

  function Saved(trace: bool, st: State): seq<nat> {
    if trace then [st.topblock, st.curblock] else [st.curblock]
  }

  function StepCall(data: MonitorData, trace: bool, st: State, sig: Signal): Outcome {
    if st.phase != InFunction then Stopped(4)
    else if st.mod >= |data| then Fault
    else
      var md := data[st.mod];
      if sig.fn >= |md.functions| then Stopped(4)
      else if !Readable(md.callGraph, st.fn, sig.fn) then Fault
      else if !Edge(md.callGraph, st.fn, sig.fn) then Stopped(4)
      else if md.functions[sig.fn].flags.External? && sig.fn >= |md.relocations| then Fault
      else
        var (m, f) := Target(data, st.mod, sig.fn);
        if !HasFunction(data, m, f) then Fault
        else
          var blocks := st.blocks + Saved(trace, st);
          Running(State(ExpectCall, m, f, FUNCTION_ENTRY_BLOCK_ID, FUNCTION_ENTRY_BLOCK_ID,
            st.calls + [Frame(st.mod, st.fn, |blocks|)], blocks))
  }

  function StepEnter(data: MonitorData, st: State, sig: Signal): Outcome {
    if st.phase == Ready then
      if sig.mod >= |data| then Stopped(6)
      else if sig.fn >= |data[sig.mod].functions| then Stopped(7)
      else if !IsEntrypoint(data[sig.mod].functions[sig.fn]) then Stopped(7)
      else Running(st.(phase := InFunction, mod := sig.mod, fn := sig.fn,
        curblock := FUNCTION_ENTRY_BLOCK_ID, topblock := FUNCTION_ENTRY_BLOCK_ID))
    else if st.phase != ExpectCall || !InPlace(st, sig) || st.curblock != FUNCTION_ENTRY_BLOCK_ID then
      Stopped(4)
    else
      Running(st.(phase := InFunction))
  }

  function StepExit(data: MonitorData, trace: bool, st: State, sig: Signal): Outcome {
    if st.phase != InFunction || !InPlace(st, sig) then Stopped(4)
    else if st.calls == [] then
      if !HasFunction(data, st.mod, st.fn) then Fault
      else if !IsEntrypoint(data[st.mod].functions[st.fn]) then Stopped(7)
      else Stopped(0)
    else
      var frame := st.calls[|st.calls| - 1];
      if !HasFunction(data, frame.mod, frame.fn) || frame.sp > |st.blocks| then Fault
      else if frame.sp == 0 then Stopped(7)
      else if trace && frame.sp < 2 then Fault
      else
        var height := if trace then frame.sp - 2 else frame.sp - 1;
        Running(State(ExpectReturn, frame.mod, frame.fn, st.blocks[frame.sp - 1],
          if trace then st.blocks[frame.sp - 2] else st.topblock,
          st.calls[..|st.calls| - 1], st.blocks[..height]))
  }

  function StepReturned(data: MonitorData, st: State, sig: Signal): Outcome {
    if st.phase != ExpectReturn then Stopped(4)
    else if st.mod >= |data| then Fault
    else if sig.fn >= |data[st.mod].functions| then Stopped(4)
    else if !Readable(data[st.mod].callGraph, st.fn, sig.fn) then Fault
    else if !Edge(data[st.mod].callGraph, st.fn, sig.fn) then Stopped(4)
    else Running(st.(phase := InFunction))
  }

  /** What becomes of a run that is offered a stream of signals.
      Waiting: all of them were acknowledged and the monitor waits for the next.
      Ended: the run returned the error code, and rest was not read. */
  datatype Verdict = Waiting(st: State) | Ended(error: nat, rest: seq<Signal>) | Faulted

  function Run(data: MonitorData, trace: bool, st: State, sigs: seq<Signal>): Verdict
    decreases |sigs|
  {
    if sigs == [] then Waiting(st)
    else
      match Step(data, trace, st, sigs[0])
      case Running(next) => Run(data, trace, next, sigs[1..])
      case Stopped(error) => Ended(error, sigs[1..])
      case Fault => Faulted
  }

  /** The run returns 0 after reading exactly these signals. */
  predicate Accepts(data: MonitorData, trace: bool, sigs: seq<Signal>) {
    Run(data, trace, INITIAL, sigs) == Ended(0, [])
  }

  /** A run that has been offered more signals after reaching the verdict v. */
  function Resume(data: MonitorData, trace: bool, v: Verdict, more: seq<Signal>): Verdict {
    match v
    case Waiting(st) => Run(data, trace, st, more)
    case Ended(error, rest) => Ended(error, rest + more)
    case Faulted => Faulted
  }

  /** The verdict on the first signals decides how the rest is read. */
  lemma {:induction false} RunAppend(data: MonitorData, trace: bool, st: State, a: seq<Signal>, b: seq<Signal>)
    ensures Run(data, trace, st, a + b) == Resume(data, trace, Run(data, trace, st, a), b)
    decreases |a|
  {
    if a == [] {
      assert a + b == b;
    } else {
      assert (a + b)[1..] == a[1..] + b;
      match Step(data, trace, st, a[0])
      case Running(next) => RunAppend(data, trace, next, a[1..], b);
      case Stopped(error) =>
      case Fault =>
    }
  }

  lemma {:induction false} RunOne(data: MonitorData, trace: bool, st: State, sig: Signal, rest: seq<Signal>)
    ensures Step(data, trace, st, sig).Running? ==>
      Run(data, trace, st, [sig] + rest) == Run(data, trace, Step(data, trace, st, sig).st, rest)
    ensures Step(data, trace, st, sig).Stopped? ==>
      Run(data, trace, st, [sig] + rest) == Ended(Step(data, trace, st, sig).error, rest)
    ensures Step(data, trace, st, sig).Fault? ==> Run(data, trace, st, [sig] + rest) == Faulted
  {
    assert ([sig] + rest)[1..] == rest;
  }
}
