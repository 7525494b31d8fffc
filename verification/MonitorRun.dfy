/**
 The monitor loop as it is written: fields and array-backed stacks updated in place, one branch per
 event, one acknowledgement per accepted signal.
 */
module MonitorRun {
  import opened MonitorTables
  import opened MonitorSpec
  import opened TraceLanguage
  import opened RunInvariant
  import opened GrowableStack

  /** The two pipes between the client and the monitor. */
  class Pipes {
    var signals: seq<Signal>
    var answers: nat

    constructor (signals: seq<Signal>)
      ensures this.signals == signals && answers == 0
    {
      this.signals := signals;
      answers := 0;
    }
  }

  /** How the handling of one signal ends.  Crash is a read through a missing row. */
  datatype Control = Continue | Stop(error: nat) | Crash

  const EMPTY_BLOCK_STACK := Stop(7)

  datatype Result = Finished(error: nat) | Blocked | Crashed

  lemma {:induction false} Popped(s: seq<nat>, sp: nat, rest: seq<nat>, v: nat)
    requires 0 < sp <= |s| && s[..sp] == rest + [v]
    ensures rest == s[..sp - 1] && v == s[sp - 1]
  {
    assert s[..sp][..sp - 1] == s[..sp - 1];
  }

  class Run {
    const data: MonitorData
    const trace: bool
    var phase: Phase
    var currentModule: nat
    var currentFunction: nat
    var curblock: nat
    var topblock: nat
    const calls: Stack<Frame>
    const blocks: Stack<nat>

    ghost predicate Valid()
      reads this, calls, blocks, calls.data, blocks.data
    {
      && calls.Valid() && blocks.Valid()
      && calls.extendSize == CALL_STACK_EXTEND_SIZE && blocks.extendSize == BLOCK_STACK_EXTEND_SIZE
      && WellFormed(data)
      && Inv(data, trace, State())
    }

    ghost function State(): State
      requires calls.Valid() && blocks.Valid()
      reads this, calls, blocks, calls.data, blocks.data
    {
      MonitorSpec.State.State(phase, currentModule, currentFunction, curblock, topblock, calls.Contents(),
                              blocks.Contents())
    }

    constructor (data: MonitorData, trace: bool)
      requires WellFormed(data)
      ensures Valid() && State() == INITIAL
      ensures this.data == data && this.trace == trace
      ensures fresh(calls) && fresh(blocks) && fresh(calls.data) && fresh(blocks.data)
    {
      this.data := data;
      this.trace := trace;
      phase := Ready;
      currentModule, currentFunction, curblock, topblock := 0, 0, 0, 0;
      calls := new Stack<Frame>(CALL_STACK_EXTEND_SIZE);
      blocks := new Stack<nat>(BLOCK_STACK_EXTEND_SIZE);
    }

    /** The branch taken and the state left are those of the step function. */
    ghost predicate Agrees(control: Control, outcome: Outcome)
      requires calls.Valid() && blocks.Valid()
      reads this, calls, blocks, calls.data, blocks.data
    {
      match outcome
      case Running(st) => control == Continue && State() == st
      case Stopped(error) => control == Stop(error)
      case Fault => control == Crash
    }

    /** All that the branches need to know. */
    ghost predicate Sound()
      reads this, calls, blocks, calls.data, blocks.data
    {
      calls.Valid() && blocks.Valid() && WellFormed(data) && InBounds(data, trace, State())
    }

    method OnBeforeJump(sig: Signal) returns (control: Control)
      requires Sound()
      modifies this
      ensures calls.Valid() && blocks.Valid()
      ensures Agrees(control, StepBeforeJump(old(State()), sig))
    {
      if phase != InFunction || currentModule != sig.mod || currentFunction != sig.fn || curblock != sig.block {
        return Stop(4);
      }
      phase := ExpectJump;
      return Continue;
    }

    method OnAfterJump(sig: Signal) returns (control: Control)
      requires Sound()
      modifies this, blocks, blocks.data
      ensures calls.Valid() && blocks.Valid() && (blocks.data == old(blocks.data) || fresh(blocks.data))
      ensures Agrees(control, StepAfterJump(data, trace, old(State()), sig))
    {
      if phase != ExpectJump || currentModule != sig.mod || currentFunction != sig.fn {
        return Stop(4);
      }
      var fd := data[currentModule].functions[currentFunction];
      if sig.block >= fd.nbBlocks {
        return Stop(4);
      }
      if fd.controlFlowGraph[curblock].None? {
        return Crash;
      }
      if !fd.controlFlowGraph[curblock].value[sig.block] {
        return Stop(4);
      }
      if trace && fd.immediatePostDominator[topblock] == sig.block {
        blocks.Push(topblock);
        topblock := sig.block;
      }
      curblock := sig.block;
      phase := InFunction;
      return Continue;
    }

    /** Save the caller: its blocks on the block stack, its ids and the block stack's height on the call stack. */
    method SuspendCaller()
      requires calls.Valid() && blocks.Valid()
      modifies this`curblock, this`topblock, calls, blocks, calls.data, blocks.data
      ensures calls.Valid() && blocks.Valid()
      ensures calls.data == old(calls.data) || fresh(calls.data)
      ensures blocks.data == old(blocks.data) || fresh(blocks.data)
      ensures blocks.Contents() == old(blocks.Contents()) + Saved(trace, old(State()))
      ensures calls.Contents() == old(calls.Contents()) + [Frame(currentModule, currentFunction, |blocks.Contents()|)]
      ensures curblock == FUNCTION_ENTRY_BLOCK_ID && topblock == FUNCTION_ENTRY_BLOCK_ID
    {
      SaveBlocks();
      curblock, topblock := FUNCTION_ENTRY_BLOCK_ID, FUNCTION_ENTRY_BLOCK_ID;
      calls.Push(Frame(currentModule, currentFunction, blocks.TopPtr()));
    }

    method SaveBlocks()
      requires blocks.Valid()
      modifies blocks, blocks.data
      ensures blocks.Valid() && (blocks.data == old(blocks.data) || fresh(blocks.data))
      ensures blocks.Contents() == old(blocks.Contents()) + if trace then [topblock, curblock] else [curblock]
    {
      if trace {
        blocks.Push(topblock);
      }
      blocks.Push(curblock);
    }

    /** The ids of the function that a call to the local id fn runs. */
    method Relocate(fn: nat)
      requires WellFormed(data) && HasFunction(data, currentModule, fn)
      modifies this`currentModule, this`currentFunction
      ensures (currentModule, currentFunction) == Target(data, old(currentModule), fn)
    {
      var md := data[currentModule];
      if md.functions[fn].flags.External? {
        var reloc := md.relocations[fn];
        currentModule, currentFunction := GetModule(reloc), GetFunction(reloc);
      } else {
        currentFunction := fn;
      }
    }

    method OnCall(sig: Signal) returns (control: Control)
      requires Sound()
      modifies this, calls, blocks, calls.data, blocks.data
      ensures calls.Valid() && blocks.Valid()
      ensures calls.data == old(calls.data) || fresh(calls.data)
      ensures blocks.data == old(blocks.data) || fresh(blocks.data)
      ensures Agrees(control, StepCall(data, trace, old(State()), sig))
    {
      if phase != InFunction || sig.fn >= |data[currentModule].functions| {
        return Stop(4);
      }
      var md := data[currentModule];
      if md.callGraph[currentFunction].None? {
        return Crash;
      }
      if !md.callGraph[currentFunction].value[sig.fn] {
        return Stop(4);
      }
      TargetExists(data, currentModule, sig.fn);
      SuspendCaller();
      Relocate(sig.fn);
      phase := ExpectCall;
      return Continue;
    }

    method OnEnter(sig: Signal) returns (control: Control)
      requires Sound()
      modifies this
      ensures calls.Valid() && blocks.Valid()
      ensures Agrees(control, StepEnter(data, old(State()), sig))
    {
      if phase == Ready {
        if sig.mod >= |data| {
          return Stop(6);
        }
        if sig.fn >= |data[sig.mod].functions| || !IsEntrypoint(data[sig.mod].functions[sig.fn]) {
          return Stop(7);
        }
        curblock, topblock := FUNCTION_ENTRY_BLOCK_ID, FUNCTION_ENTRY_BLOCK_ID;
        currentModule, currentFunction := sig.mod, sig.fn;
      } else if phase != ExpectCall || currentModule != sig.mod || currentFunction != sig.fn
                || curblock != FUNCTION_ENTRY_BLOCK_ID {
        return Stop(4);
      }
      phase := InFunction;
      return Continue;
    }

    /** Undo SuspendCaller, dropping whatever the callee left on the block stack. */
    method RestoreCaller() returns (blocksEmpty: bool)
      requires calls.Valid() && blocks.Valid() && !calls.IsEmpty()
      requires var sp := calls.Contents()[|calls.Contents()| - 1].sp;
               (if trace then 2 else 1) <= sp <= |blocks.Contents()|
      modifies this`currentModule, this`currentFunction, this`curblock, this`topblock, calls, blocks
      ensures calls.Valid() && blocks.Valid() && calls.data == old(calls.data) && blocks.data == old(blocks.data)
      ensures !blocksEmpty
      ensures var was := old(State());
              var frame := was.calls[|was.calls| - 1];
              && (currentModule, currentFunction) == (frame.mod, frame.fn)
              && curblock == was.blocks[frame.sp - 1]
              && topblock == (if trace then was.blocks[frame.sp - 2] else was.topblock)
              && calls.Contents() == was.calls[..|was.calls| - 1]
              && blocks.Contents() == was.blocks[..if trace then frame.sp - 2 else frame.sp - 1]
    {
      ghost var was := calls.Contents();
      var ncall := calls.Pop();
      assert was == calls.Contents() + [ncall];
      currentModule, currentFunction := ncall.mod, ncall.fn;
      blocksEmpty := RestoreBlocks(ncall.sp);
    }

    method RestoreBlocks(sp: nat) returns (blocksEmpty: bool)
      requires blocks.Valid() && (if trace then 2 else 1) <= sp <= |blocks.Contents()|
      modifies this`curblock, this`topblock, blocks
      ensures blocks.Valid() && blocks.data == old(blocks.data)
      ensures !blocksEmpty && curblock == old(blocks.Contents())[sp - 1]
      ensures topblock == if trace then old(blocks.Contents())[sp - 2] else old(topblock)
      ensures blocks.Contents() == old(blocks.Contents())[..if trace then sp - 2 else sp - 1]
    {
      ghost var was := blocks.Contents();
      blocks.RestoreTop(sp);
      if blocks.IsEmpty() {
        return true;
      }
      curblock := blocks.Pop();
      Popped(was, sp, blocks.Contents(), curblock);
      if trace {
        topblock := blocks.Pop();
        Popped(was, sp - 1, blocks.Contents(), topblock);
      }
      return false;
    }

    method OnExit(sig: Signal) returns (control: Control)
      requires Sound()
      modifies this, calls, blocks
      ensures calls.Valid() && blocks.Valid() && calls.data == old(calls.data) && blocks.data == old(blocks.data)
      ensures Agrees(control, StepExit(data, trace, old(State()), sig))
    {
      if phase != InFunction || currentModule != sig.mod || currentFunction != sig.fn {
        return Stop(4);
      }
      if calls.IsEmpty() {
        if !IsEntrypoint(data[currentModule].functions[currentFunction]) {
          return Stop(7);
        }
        phase := Ready;
        return Stop(0);
      }
      var blocksEmpty := RestoreCaller();
      if blocksEmpty {
        return EMPTY_BLOCK_STACK;
      }
      phase := ExpectReturn;
      return Continue;
    }

    method OnReturned(sig: Signal) returns (control: Control)
      requires Sound()
      modifies this
      ensures calls.Valid() && blocks.Valid()
      ensures Agrees(control, StepReturned(data, old(State()), sig))
    {
      if phase != ExpectReturn || sig.fn >= |data[currentModule].functions| {
        return Stop(4);
      }
      if !data[currentModule].callGraph[currentFunction].value[sig.fn] {
        return Stop(4);
      }
      phase := InFunction;
      return Continue;
    }

    /** The switch of the loop. */
    method Switch(sig: Signal) returns (control: Control)
      requires Sound()
      modifies this, calls, blocks, calls.data, blocks.data
      ensures calls.Valid() && blocks.Valid()
      ensures calls.data == old(calls.data) || fresh(calls.data)
      ensures blocks.data == old(blocks.data) || fresh(blocks.data)
      ensures Agrees(control, Step(data, trace, old(State()), sig))
    {
      match sig.event {
      case BeforeJump => control := OnBeforeJump(sig);
      case AfterJump => control := OnAfterJump(sig);
      case Call => control := OnCall(sig);
      case Enter => control := OnEnter(sig);
      case Exit => control := OnExit(sig);
      case Returned => control := OnReturned(sig);
      case Malformed => control := Stop(5);
      }
    }

    /** One signal: what the switch does, and the invariant. */
    method Handle(sig: Signal) returns (control: Control)
      requires Valid()
      modifies this, calls, blocks, calls.data, blocks.data
      ensures calls.Valid() && blocks.Valid()
      ensures calls.data == old(calls.data) || fresh(calls.data)
      ensures blocks.data == old(blocks.data) || fresh(blocks.data)
      ensures Agrees(control, Step(data, trace, old(State()), sig))
      ensures control == Continue ==> Valid()
    {
      ghost var was := State();
      InvIsInBounds(data, trace, was);
      control := Switch(sig);
      if control == Continue {
        StepKeepsInv(data, trace, was, sig);
      }
    }
  }

  /** What the rest of a run is worth after its next signal. */
  lemma {:induction false} NextSignal(data: MonitorData, trace: bool, st: State, sigs: seq<Signal>)
    requires sigs != []
    ensures var v := MonitorSpec.Run(data, trace, st, sigs);
            match Step(data, trace, st, sigs[0])
            case Running(next) => v == MonitorSpec.Run(data, trace, next, sigs[1..])
            case Stopped(error) => v == Ended(error, sigs[1..])
            case Fault => v == Faulted
  {
  }

  /** A run succeeds exactly if what it is sent begins with a derivable stream, and leaves the rest. */
  lemma {:induction false} SuccessIsDerivable(data: MonitorData, trace: bool, sigs: seq<Signal>)
    requires WellFormed(data)
    ensures var v := MonitorSpec.Run(data, trace, INITIAL, sigs);
            && (v.Ended? && v.error == 0 <==> exists k | 0 <= k <= |sigs| :: Derivable(data, sigs[..k]))
            && (v.Ended? && v.error == 0 ==> IsRead(sigs, v.rest) && Derivable(data, sigs[..|sigs| - |v.rest|]))
  {
    var v := MonitorSpec.Run(data, trace, INITIAL, sigs);
    if v.Ended? && v.error == 0 {
      RestIsLeft(data, trace, INITIAL, sigs);
      ExactLanguage(data, trace, sigs[..|sigs| - |v.rest|]);
    }
    if k :| 0 <= k <= |sigs| && Derivable(data, sigs[..k]) {
      ExactLanguage(data, trace, sigs[..k]);
      assert sigs == sigs[..k] + sigs[k..];
      RunAppend(data, trace, INITIAL, sigs[..k], sigs[k..]);
    }
  }

  /** rest is what is left of the signals when others have been read. */
  predicate IsRead(sigs: seq<Signal>, rest: seq<Signal>) {
    |rest| <= |sigs| && rest == sigs[|sigs| - |rest|..]
  }

  lemma {:induction false} StartOf(sigs: seq<Signal>, k: nat)
    requires 0 < k <= |sigs|
    ensures sigs[..k][0] == sigs[0] && sigs[..k][1..] == sigs[1..][..k - 1]
  {
  }

  lemma {:induction false} RestIsLeft(data: MonitorData, trace: bool, st: State, sigs: seq<Signal>)
    requires MonitorSpec.Run(data, trace, st, sigs).Ended?
    ensures var v := MonitorSpec.Run(data, trace, st, sigs);
            && IsRead(sigs, v.rest) && |v.rest| < |sigs|
            && MonitorSpec.Run(data, trace, st, sigs[..|sigs| - |v.rest|]) == Ended(v.error, [])
    decreases |sigs|
  {
    var rest := MonitorSpec.Run(data, trace, st, sigs).rest;
    NextSignal(data, trace, st, sigs);
    match Step(data, trace, st, sigs[0])
    case Running(next) =>
      RestIsLeft(data, trace, next, sigs[1..]);
      StartOf(sigs, |sigs| - |rest|);
    case Stopped(error) =>
      StartOf(sigs, 1);
  }

  /** One turn of the loop: a signal is read and, if it is accepted, answered. */
  method ReadOne(run: Run, pipes: Pipes) returns (control: Control)
    requires run.Valid() && pipes.signals != []
    modifies run, run.calls, run.blocks, run.calls.data, run.blocks.data, pipes
    ensures run.calls.data == old(run.calls.data) || fresh(run.calls.data)
    ensures run.blocks.data == old(run.blocks.data) || fresh(run.blocks.data)
    ensures pipes.signals == old(pipes.signals)[1..]
    ensures pipes.answers == old(pipes.answers) + if control == Continue || control == Stop(0) then 1 else 0
    ensures var v := MonitorSpec.Run(run.data, run.trace, old(run.State()), old(pipes.signals));
            match control
            case Continue => run.Valid() && v == MonitorSpec.Run(run.data, run.trace, run.State(), pipes.signals)
            case Stop(error) => v == Ended(error, pipes.signals)
            case Crash => v.Faulted?
  {
    var sig, left := pipes.signals[0], pipes.signals[1..];
    NextSignal(run.data, run.trace, run.State(), pipes.signals);
    pipes.signals := left;
    control := run.Handle(sig);
    assert pipes.signals == left;
    if control == Continue || control == Stop(0) {
      pipes.answers := pipes.answers + 1;
    }
  }

  /** The loop, from the state that run is in. */
  method Listen(run: Run, pipes: Pipes) returns (result: Result)
    requires run.Valid()
    modifies run, run.calls, run.blocks, run.calls.data, run.blocks.data, pipes
    ensures IsRead(old(pipes.signals), pipes.signals)
    ensures var v := MonitorSpec.Run(run.data, run.trace, old(run.State()), old(pipes.signals));
            match result
            case Finished(error) => v == Ended(error, pipes.signals)
            case Blocked => v.Waiting? && pipes.signals == []
            case Crashed => v.Faulted?
    ensures pipes.answers == old(pipes.answers) + |old(pipes.signals)| - |pipes.signals|
                             - if result == Finished(0) || result == Blocked then 0 else 1
  {
    ghost var all, start := pipes.signals, run.State();
    while pipes.signals != []
      invariant run.Valid()
      invariant run.calls.data == old(run.calls.data) || fresh(run.calls.data)
      invariant run.blocks.data == old(run.blocks.data) || fresh(run.blocks.data)
      invariant IsRead(all, pipes.signals)
      invariant MonitorSpec.Run(run.data, run.trace, start, all) ==
                MonitorSpec.Run(run.data, run.trace, run.State(), pipes.signals)
      invariant pipes.answers == old(pipes.answers) + |all| - |pipes.signals|
      decreases |pipes.signals|
    {
      var control := ReadOne(run, pipes);
      match control
      case Continue =>
      case Stop(error) => return Finished(error);
      case Crash => return Crashed;
    }
    return Blocked;
  }

  /** One run: signals are read one by one until the last EXIT, an error, a crash, or an empty pipe.  It
      ends with 0 if and only if the stream begins with a derivable one; it then has answered each signal
      of that beginning and read nothing more.  With any other result that ends it, the last signal it
      has read is the one that it has not answered. */
  method MonitorRun(data: MonitorData, trace: bool, pipes: Pipes) returns (result: Result)
    requires WellFormed(data)
    modifies pipes
    ensures |pipes.signals| <= |old(pipes.signals)|
    ensures pipes.signals == old(pipes.signals)[|old(pipes.signals)| - |pipes.signals|..]
    ensures result == Finished(0) <==>
              exists k | 0 <= k <= |old(pipes.signals)| :: Derivable(data, old(pipes.signals)[..k])
    ensures result == Finished(0) ==>
              Derivable(data, old(pipes.signals)[..|old(pipes.signals)| - |pipes.signals|])
    ensures var v := MonitorSpec.Run(data, trace, INITIAL, old(pipes.signals));
            match result
            case Finished(error) => v == Ended(error, pipes.signals)
            case Blocked => v.Waiting? && pipes.signals == []
            case Crashed => v.Faulted?
    ensures pipes.answers == old(pipes.answers) + |old(pipes.signals)| - |pipes.signals|
                             - if result == Finished(0) || result == Blocked then 0 else 1
  {
    SuccessIsDerivable(data, trace, pipes.signals);
    var run := new Run(data, trace);
    result := Listen(run, pipes);
  }
}
