/**
 Which executions of the instrumented program the monitor accepts: exactly those in which every
 function activation sends its EXIT once and is silent afterwards, and every call goes where the
 relocations say.  The pass puts an EXIT at the end of a function's last block and nowhere else, so an
 activation must go through that block.  It need not return from it: the blocks of an untraced
 function send nothing of their own, so it may go on through blocks without monitored calls.
 */
module Acceptance {
  import opened Wrappers
  import opened MonitorTables
  import opened MonitorSpec
  import opened TraceLanguage
  import opened Injector
  import opened Execution
  import opened EndToEnd

  // ----- Leaving through the last block

  /** Every activation sends its EXIT once, and nothing after it. */
  predicate SingleExit(p: Program, act: Activation)
    decreases act, 0
  {
    SingleExitVisits(p, act.mod, act.fn, act.visits)
  }

  predicate SingleExitVisits(p: Program, m: nat, f: nat, visits: Visits)
    decreases visits, 0
  {
    && SingleExitCalls(p, visits.calls)
    && match visits
       case Last(b, _) => IsLast(p, m, f, b)
       case More(b, _, next) =>
         if IsLast(p, m, f, b) then !Traced(p, m, f) && Silent(p, m, f, next)
         else SingleExitVisits(p, m, f, next)
  }

  predicate SingleExitCalls(p: Program, calls: Calls)
    decreases calls, 0
  {
    calls.OneCall? ==> SingleExit(p, calls.act) && SingleExitCalls(p, calls.rest)
  }

  /** Blocks without a monitored call, none of them the last one. */
  predicate Silent(p: Program, m: nat, f: nat, visits: Visits)
    decreases visits
  {
    && visits.calls.NoCall? && !IsLast(p, m, f, visits.block)
    && (visits.More? ==> Silent(p, m, f, visits.next))
  }

  // ----- Going where the relocations say

  /** Every call enters the function that the monitor expects. */
  predicate Follows(p: Program, data: MonitorData, act: Activation)
    decreases act, 0
  {
    FollowsVisits(p, data, act.mod, act.fn, act.visits)
  }

  predicate FollowsVisits(p: Program, data: MonitorData, m: nat, f: nat, visits: Visits)
    decreases visits, 0
  {
    && FollowsCalls(p, data, m, InstrsOf(p, m, f, visits.block), visits.calls)
    && (visits.More? ==> FollowsVisits(p, data, m, f, visits.next))
  }

  predicate FollowsCalls(p: Program, data: MonitorData, m: nat, instrs: seq<Instr>, calls: Calls)
    decreases calls, |instrs|
  {
    if instrs == [] || m >= |p| then true
    else if Monitored(p[m].names, instrs[0]) && instrs[0].callee in p[m].names.ids && calls.OneCall? then
      && GoesTo(data, m, p[m].names.ids[instrs[0].callee], calls.act.mod, calls.act.fn)
      && Follows(p, data, calls.act)
      && FollowsCalls(p, data, m, instrs[1..], calls.rest)
    else
      FollowsCalls(p, data, m, instrs[1..], calls)
  }

  predicate Good(p: Program, data: MonitorData, act: Activation) {
    SingleExit(p, act) && Follows(p, data, act)
  }

  predicate GoodVisits(p: Program, data: MonitorData, m: nat, f: nat, visits: Visits) {
    SingleExitVisits(p, m, f, visits) && FollowsVisits(p, data, m, f, visits)
  }

  predicate GoodCalls(p: Program, data: MonitorData, m: nat, instrs: seq<Instr>, calls: Calls) {
    SingleExitCalls(p, calls) && FollowsCalls(p, data, m, instrs, calls)
  }

  lemma {:induction false} NoCallFollows(p: Program, data: MonitorData, m: nat, instrs: seq<Instr>)
    ensures FollowsCalls(p, data, m, instrs, NoCall)
    decreases |instrs|
  {
    if instrs != [] {
      NoCallFollows(p, data, m, instrs[1..]);
    }
  }

  lemma {:induction false} SilentFollows(p: Program, data: MonitorData, m: nat, f: nat, visits: Visits)
    requires Silent(p, m, f, visits)
    ensures FollowsVisits(p, data, m, f, visits)
    decreases visits
  {
    NoCallFollows(p, data, m, InstrsOf(p, m, f, visits.block));
    if visits.More? {
      SilentFollows(p, data, m, f, visits.next);
    }
  }

  /** When the relocations agree with the linker, every call goes where they say. */
  lemma {:induction false} DescribedFollows(p: Program, data: MonitorData, act: Activation)
    requires SourceProgram(p) && TablesDescribe(p, data) && ValidActivation(p, act)
    ensures Follows(p, data, act)
    decreases act, 0
  {
    DescribedVisitsFollow(p, data, act.mod, act.fn, act.visits);
  }

  lemma {:induction false} DescribedVisitsFollow(p: Program, data: MonitorData, m: nat, f: nat, visits: Visits)
    requires SourceProgram(p) && TablesDescribe(p, data) && ValidVisits(p, m, f, visits)
    ensures FollowsVisits(p, data, m, f, visits)
    decreases visits, 0
  {
    DescribedCallsFollow(p, data, m, InstrsOf(p, m, f, visits.block), visits.calls);
    if visits.More? {
      DescribedVisitsFollow(p, data, m, f, visits.next);
    }
  }

  lemma {:induction false} DescribedCallsFollow(p: Program, data: MonitorData, m: nat, instrs: seq<Instr>, calls: Calls)
    requires SourceProgram(p) && TablesDescribe(p, data) && m < |p| && ValidCalls(p, m, instrs, calls)
    ensures FollowsCalls(p, data, m, instrs, calls)
    decreases calls, |instrs|
  {
    if instrs != [] {
      if Monitored(p[m].names, instrs[0]) {
        assert Resolves(p, m, instrs[0].callee, calls.act.mod, calls.act.fn);
        DescribedFollows(p, data, calls.act);
        DescribedCallsFollow(p, data, m, instrs[1..], calls.rest);
      } else {
        DescribedCallsFollow(p, data, m, instrs[1..], calls);
      }
    }
  }

  // ----- Verdicts

  predicate Rejected(v: Verdict) {
    v.Faulted? || (v.Ended? && v.error != 0)
  }

  /** The verdict once a function called in state caller, or called by nobody, has sent its EXIT. */
  function Left(caller: Option<State>): Verdict {
    match caller
    case None => Ended(0, [])
    case Some(st) => Waiting(st.(phase := ExpectReturn))
  }

  /** Any other verdict: it cannot be followed by an accepted RETURNED, nor, for a function called by
      nobody, by an accepted ENTER. */
  predicate Astray(caller: Option<State>, v: Verdict) {
    || Rejected(v)
    || match caller
       case None =>
         || (v.Waiting? && v.st.phase in {InFunction, ExpectJump})
         || (v.Ended? && v.rest != [] && v.rest[0].event !in {Enter, Malformed})
       case Some(_) => v.Waiting? && v.st.phase != ExpectReturn
  }

  /** base is the state in which a function body starts. */
  ghost predicate Starts(data: MonitorData, trace: bool, caller: Option<State>, base: State) {
    && InBody(data, trace, base)
    && match caller
       case None => base.calls == [] && IsEntrypoint(data[base.mod].functions[base.fn])
       case Some(st) =>
         && InBody(data, trace, st)
         && base.blocks == st.blocks + Saved(trace, st)
         && base.calls == st.calls + [Frame(st.mod, st.fn, |base.blocks|)]
  }

  // ----- Silence

  lemma {:induction false} CallsAreHeard(p: Program, m: nat, instrs: seq<Instr>, calls: Calls)
    requires m < |p| && ValidCalls(p, m, instrs, calls)
    ensures calls.NoCall? <==> TraceCalls(p, m, instrs, calls) == []
    ensures calls.OneCall? ==> TraceCalls(p, m, instrs, calls)[0].event == Call
    decreases |instrs|
  {
    if instrs != [] && !Monitored(p[m].names, instrs[0]) {
      CallsAreHeard(p, m, instrs[1..], calls);
    }
  }

  /** An untraced function is silent in exactly the visits called Silent; otherwise it is first heard
      making a call or leaving. */
  lemma {:induction false} SilentVisits(p: Program, m: nat, f: nat, visits: Visits)
    requires SourceProgram(p) && ValidVisits(p, m, f, visits) && !Traced(p, m, f)
    ensures Silent(p, m, f, visits) <==> TraceVisits(p, m, f, visits) == []
    ensures !Silent(p, m, f, visits) ==> TraceVisits(p, m, f, visits)[0].event in {Call, Exit}
    decreases visits
  {
    CallsAreHeard(p, m, InstrsOf(p, m, f, visits.block), visits.calls);
    if visits.More? {
      NeverBackToEntry(p, m, f, visits);
      SilentVisits(p, m, f, visits.next);
    }
  }

  lemma {:induction false} NeverBackToEntry(p: Program, m: nat, f: nat, visits: Visits)
    requires SourceProgram(p) && ValidVisits(p, m, f, visits) && visits.More?
    ensures visits.next.block != FUNCTION_ENTRY_BLOCK_ID
  {
    assert SourceBlock(p[m], p[m].functions[f].blocks, visits.block);
  }

  /** Once a function has left, anything more it sends is refused. */
  lemma {:induction false} HeardAfterLeaving(data: MonitorData, trace: bool, caller: Option<State>, st: State,
                                             exit: Signal, more: seq<Signal>)
    requires exit.event == Exit && more != [] && more[0].event in {Call, Exit, AfterJump}
    requires match caller
             case None => Step(data, trace, st, exit) == Stopped(0)
             case Some(c) => Step(data, trace, st, exit) == Running(c.(phase := ExpectReturn))
    ensures Astray(caller, Run(data, trace, st, [exit] + more))
  {
    RunOne(data, trace, st, exit, more);
  }

  lemma {:induction false} ExitLeaves(data: MonitorData, trace: bool, caller: Option<State>, base: State, st: State,
                                      exit: Signal)
    requires WellFormed(data) && Starts(data, trace, caller, base)
    requires InBody(data, trace, st) && SameFrame(base, st) && IsAt(exit, Exit, st.mod, st.fn)
    ensures match caller
            case None => Step(data, trace, st, exit) == Stopped(0)
            case Some(c) => Step(data, trace, st, exit) == Running(c.(phase := ExpectReturn))
    ensures Run(data, trace, st, [exit]) == Left(caller)
  {
    match caller
    case None =>
    case Some(c) => CloseFrame(data, trace, c, base, st, exit);
  }

  // ----- The monitor against the traces of executions

  lemma {:induction false} CallsRun(p: Program, data: MonitorData, trace: bool, st: State, k: nat,
                                    instrs: seq<Instr>, calls: Calls)
    requires SourceProgram(p) && TablesMatch(p, data) && InBody(data, trace, st)
    requires HasBlock(p, st.mod, st.fn, k)
    requires forall i | i in instrs :: i in p[st.mod].functions[st.fn].blocks[k].instrs
    requires ValidCalls(p, st.mod, instrs, calls)
    ensures var v := Run(data, trace, st, TraceCalls(p, st.mod, instrs, calls));
            if GoodCalls(p, data, st.mod, instrs, calls) then v == Waiting(st) else Rejected(v)
    decreases calls, |instrs|
  {
    if instrs != [] {
      if Monitored(p[st.mod].names, instrs[0]) {
        var id := p[st.mod].names.ids[instrs[0].callee];
        var one := [Signal(Call, st.mod, id, 0)] + Trace(p, calls.act) + [Signal(Returned, st.mod, id, 0)];
        OneCallRuns(p, data, trace, st, k, instrs[0], calls.act);
        var rest := TraceCalls(p, st.mod, instrs[1..], calls.rest);
        assert TraceCalls(p, st.mod, instrs, calls) == one + rest;
        RunAppend(data, trace, st, one, rest);
        CallsRun(p, data, trace, st, k, instrs[1..], calls.rest);
      } else {
        CallsRun(p, data, trace, st, k, instrs[1..], calls);
      }
    }
  }

  lemma {:induction false} OneCallRuns(p: Program, data: MonitorData, trace: bool, st: State, k: nat,
                                       i: Instr, act: Activation)
    requires SourceProgram(p) && TablesMatch(p, data) && InBody(data, trace, st)
    requires HasBlock(p, st.mod, st.fn, k) && i in p[st.mod].functions[st.fn].blocks[k].instrs
    requires Monitored(p[st.mod].names, i) && i.callee in p[st.mod].names.ids
    requires Resolves(p, st.mod, i.callee, act.mod, act.fn) && ValidActivation(p, act)
    ensures var id := p[st.mod].names.ids[i.callee];
            var call, returned := Signal(Call, st.mod, id, 0), Signal(Returned, st.mod, id, 0);
            var v := Run(data, trace, st, [call] + Trace(p, act) + [returned]);
            if GoesTo(data, st.mod, id, act.mod, act.fn) && Good(p, data, act) then v == Waiting(st) else Rejected(v)
    decreases act, 3
  {
    var id := p[st.mod].names.ids[i.callee];
    var call, enter := Signal(Call, st.mod, id, 0), Signal(Enter, act.mod, act.fn, 0);
    var returned := Signal(Returned, st.mod, id, 0);
    assert CallEdge(data, st.mod, st.fn, id);
    var body := TraceVisits(p, act.mod, act.fn, act.visits);
    CallTrace(p, act, call, returned);
    if GoesTo(data, st.mod, id, act.mod, act.fn) {
      var base := OpenFrame(data, trace, st, call, enter);
      VisitsRun(p, data, trace, Some(st), base, base, act.visits);
      ReturnedRuns(data, trace, st, base, body, returned);
    } else {
      WrongTarget(data, trace, st, call, enter, body + [returned]);
    }
  }

  /** A function that is not the one expected is refused when it enters. */
  lemma {:induction false} WrongTarget(data: MonitorData, trace: bool, st: State, call: Signal, enter: Signal,
                                       more: seq<Signal>)
    requires WellFormed(data) && InBody(data, trace, st)
    requires call.event == Call && CallEdge(data, st.mod, st.fn, call.fn)
    requires enter.event == Enter && !GoesTo(data, st.mod, call.fn, enter.mod, enter.fn)
    ensures Rejected(Run(data, trace, st, [call, enter] + more))
  {
    TargetExists(data, st.mod, call.fn);
    assert [call, enter] + more == [call] + ([enter] + more);
    RunOne(data, trace, st, call, [enter] + more);
    RunOne(data, trace, Step(data, trace, st, call).st, enter, more);
  }

  lemma {:induction false} CallTrace(p: Program, act: Activation, call: Signal, returned: Signal)
    requires act.visits.block == FUNCTION_ENTRY_BLOCK_ID
    ensures [call] + Trace(p, act) + [returned] ==
            [call, Signal(Enter, act.mod, act.fn, 0)] + (TraceVisits(p, act.mod, act.fn, act.visits) + [returned])
  {
  }

  /** RETURNED is accepted after a function that has left, and refused after one gone astray. */
  lemma {:induction false} ReturnedRuns(data: MonitorData, trace: bool, st: State, base: State, body: seq<Signal>,
                                        returned: Signal)
    requires InBody(data, trace, st) && returned.event == Returned && CallEdge(data, st.mod, st.fn, returned.fn)
    ensures Run(data, trace, base, body) == Left(Some(st)) ==>
            Run(data, trace, base, body + [returned]) == Waiting(st)
    ensures Astray(Some(st), Run(data, trace, base, body)) ==>
            Rejected(Run(data, trace, base, body + [returned]))
  {
    RunAppend(data, trace, base, body, [returned]);
    var v := Run(data, trace, base, body);
    if v.Waiting? {
      RunOne(data, trace, v.st, returned, []);
      assert [returned] + [] == [returned];
    }
  }

  lemma {:induction false} VisitsRun(p: Program, data: MonitorData, trace: bool, caller: Option<State>,
                                     base: State, st: State, visits: Visits)
    requires SourceProgram(p) && TablesMatch(p, data)
    requires Starts(data, trace, caller, base) && InBody(data, trace, st) && SameFrame(base, st)
    requires ValidVisits(p, st.mod, st.fn, visits)
    requires Traced(p, st.mod, st.fn) ==> st.curblock == visits.block
    ensures var v := Run(data, trace, st, TraceVisits(p, st.mod, st.fn, visits));
            if GoodVisits(p, data, st.mod, st.fn, visits) then v == Left(caller) else Astray(caller, v)
    decreases visits, 2
  {
    var calls := TraceCalls(p, st.mod, InstrsOf(p, st.mod, st.fn, visits.block), visits.calls);
    CallsRun(p, data, trace, st, visits.block, InstrsOf(p, st.mod, st.fn, visits.block), visits.calls);
    var after := AfterCalls(p, st.mod, st.fn, visits);
    TraceSplits(p, st.mod, st.fn, visits);
    RunAppend(data, trace, st, calls, after);
    if GoodCalls(p, data, st.mod, InstrsOf(p, st.mod, st.fn, visits.block), visits.calls) {
      AfterCallsRuns(p, data, trace, caller, base, st, visits);
    }
  }

  /** What a function sends from the end of its current block on. */
  function AfterCalls(p: Program, m: nat, f: nat, visits: Visits): seq<Signal> {
    Tail(p, m, f, visits.block) +
    if visits.More? then Head(p, m, f, visits.next.block) + TraceVisits(p, m, f, visits.next) else []
  }

  lemma {:induction false} TraceSplits(p: Program, m: nat, f: nat, visits: Visits)
    ensures TraceVisits(p, m, f, visits) ==
            TraceCalls(p, m, InstrsOf(p, m, f, visits.block), visits.calls) + AfterCalls(p, m, f, visits)
  {
  }

  lemma {:induction false} AfterCallsRuns(p: Program, data: MonitorData, trace: bool, caller: Option<State>,
                                          base: State, st: State, visits: Visits)
    requires SourceProgram(p) && TablesMatch(p, data)
    requires Starts(data, trace, caller, base) && InBody(data, trace, st) && SameFrame(base, st)
    requires ValidVisits(p, st.mod, st.fn, visits)
    requires GoodCalls(p, data, st.mod, InstrsOf(p, st.mod, st.fn, visits.block), visits.calls)
    requires Traced(p, st.mod, st.fn) ==> st.curblock == visits.block
    ensures var v := Run(data, trace, st, AfterCalls(p, st.mod, st.fn, visits));
            if GoodVisits(p, data, st.mod, st.fn, visits) then v == Left(caller) else Astray(caller, v)
    decreases visits, 1
  {
    if IsLast(p, st.mod, st.fn, visits.block) {
      AfterLastBlock(p, data, trace, caller, base, st, visits);
    } else if visits.Last? {
      LeftTooEarly(p, data, trace, caller, st, visits.block);
    } else {
      NeverBackToEntry(p, st.mod, st.fn, visits);
      var next := BranchRuns(p, data, trace, st, visits);
      assert next.blocks[..|base.blocks|] == next.blocks[..|st.blocks|][..|base.blocks|];
      VisitsRun(p, data, trace, caller, base, next, visits.next);
    }
  }

  /** A branch from a block that is not the last takes the monitor along, if the blocks are traced. */
  lemma {:induction false} BranchRuns(p: Program, data: MonitorData, trace: bool, st: State, visits: Visits)
    returns (next: State)
    requires SourceProgram(p) && TablesMatch(p, data) && InBody(data, trace, st)
    requires ValidVisits(p, st.mod, st.fn, visits) && visits.More? && !IsLast(p, st.mod, st.fn, visits.block)
    requires visits.next.block != FUNCTION_ENTRY_BLOCK_ID
    requires Traced(p, st.mod, st.fn) ==> st.curblock == visits.block
    ensures InBody(data, trace, next) && SameFrame(st, next)
    ensures Traced(p, st.mod, st.fn) ==> next.curblock == visits.next.block
    ensures Run(data, trace, st, AfterCalls(p, st.mod, st.fn, visits)) ==
            Run(data, trace, next, TraceVisits(p, st.mod, st.fn, visits.next))
  {
    var m, f := st.mod, st.fn;
    var rest := TraceVisits(p, m, f, visits.next);
    if Traced(p, m, f) {
      var before, landed := Signal(BeforeJump, m, f, visits.block), Signal(AfterJump, m, f, visits.next.block);
      next := JumpStep(data, trace, st, before, landed);
      assert AfterCalls(p, m, f, visits) == [before, landed] + rest;
    } else {
      next := st;
      assert AfterCalls(p, m, f, visits) == rest;
    }
  }

  lemma {:induction false} LeftTooEarly(p: Program, data: MonitorData, trace: bool, caller: Option<State>, st: State,
                                        b: nat)
    requires InBody(data, trace, st) && !IsLast(p, st.mod, st.fn, b)
    requires Traced(p, st.mod, st.fn) ==> st.curblock == b
    ensures Astray(caller, Run(data, trace, st, Tail(p, st.mod, st.fn, b) + []))
  {
    if Traced(p, st.mod, st.fn) {
      RunOne(data, trace, st, Signal(BeforeJump, st.mod, st.fn, b), []);
    }
  }

  lemma {:induction false} AfterLastBlock(p: Program, data: MonitorData, trace: bool, caller: Option<State>,
                       base: State, st: State, visits: Visits)
    requires SourceProgram(p) && WellFormed(data)
    requires Starts(data, trace, caller, base) && InBody(data, trace, st) && SameFrame(base, st)
    requires ValidVisits(p, st.mod, st.fn, visits) && IsLast(p, st.mod, st.fn, visits.block)
    requires GoodCalls(p, data, st.mod, InstrsOf(p, st.mod, st.fn, visits.block), visits.calls)
    ensures var v := Run(data, trace, st, AfterCalls(p, st.mod, st.fn, visits));
            if GoodVisits(p, data, st.mod, st.fn, visits) then v == Left(caller) else Astray(caller, v)
  {
    var exit := Signal(Exit, st.mod, st.fn, 0);
    ExitLeaves(data, trace, caller, base, st, exit);
    if visits.More? {
      var next := visits.next;
      NeverBackToEntry(p, st.mod, st.fn, visits);
      var rest := Head(p, st.mod, st.fn, next.block) + TraceVisits(p, st.mod, st.fn, next);
      if !Traced(p, st.mod, st.fn) {
        SilentVisits(p, st.mod, st.fn, next);
        if Silent(p, st.mod, st.fn, next) {
          SilentFollows(p, data, st.mod, st.fn, next);
        }
        assert rest == TraceVisits(p, st.mod, st.fn, next);
      }
      if rest == [] {
        assert [exit] + rest == [exit];
      } else {
        HeardAfterLeaving(data, trace, caller, st, exit, rest);
      }
    } else {
      assert [exit] + [] == [exit];
    }
  }

  lemma {:induction false} TraceVerdict(p: Program, data: MonitorData, trace: bool, act: Activation)
    requires SourceProgram(p) && TablesMatch(p, data) && ValidActivation(p, act)
    requires HasFunction(data, act.mod, act.fn) && IsEntrypoint(data[act.mod].functions[act.fn])
    ensures var v := Run(data, trace, INITIAL, Trace(p, act));
            if Good(p, data, act) then v == Ended(0, []) else Astray(None, v)
  {
    var base := INITIAL.(phase := InFunction, mod := act.mod, fn := act.fn);
    VisitsRun(p, data, trace, None, base, base, act.visits);
    FirstEnter(data, trace, Signal(Enter, act.mod, act.fn, 0), TraceVisits(p, act.mod, act.fn, act.visits));
  }

  lemma {:induction false} FirstEnter(data: MonitorData, trace: bool, enter: Signal, more: seq<Signal>)
    requires enter.event == Enter && HasFunction(data, enter.mod, enter.fn)
    requires IsEntrypoint(data[enter.mod].functions[enter.fn])
    ensures Run(data, trace, INITIAL, [enter] + more) ==
            Run(data, trace, INITIAL.(phase := InFunction, mod := enter.mod, fn := enter.fn), more)
  {
    RunOne(data, trace, INITIAL, enter, more);
  }

  /** The verdict on an execution of the instrumented program from an entry point, on tables that may
      hold any relocations. */
  lemma {:induction false} ExecutionVerdict(p: Program, data: MonitorData, trace: bool, act: Activation)
    requires SourceProgram(p) && TablesMatch(p, data)
    requires ValidActivation(Instrumented(p), act)
    requires HasFunction(data, act.mod, act.fn) && IsEntrypoint(data[act.mod].functions[act.fn])
    ensures var v := Run(data, trace, INITIAL, Emits(Instrumented(p), act));
            if Good(p, data, act) then v == Ended(0, []) else Astray(None, v)
  {
    SameActivations(p, act);
    EmitsTrace(p, Instrumented(p), act);
    TraceVerdict(p, data, trace, act);
  }

  /** End to end: when the relocations agree with the linker, an execution of the instrumented program,
      from an entry point to its end, is accepted by the monitor, with error 0 and nothing left to
      read, if and only if every function activation in it sends its EXIT once and is silent
      afterwards. */
  lemma {:induction false} InstrumentedExecutionIsAccepted(p: Program, data: MonitorData, trace: bool, act: Activation)
    requires SourceProgram(p) && TablesDescribe(p, data)
    requires ValidActivation(Instrumented(p), act)
    requires HasFunc(p, act.mod, act.fn) && IsEntrypoint(data[act.mod].functions[act.fn])
    ensures Accepts(data, trace, Emits(Instrumented(p), act)) <==> SingleExit(p, act)
  {
    SameActivations(p, act);
    DescribedFollows(p, data, act);
    ExecutionVerdict(p, data, trace, act);
  }

  // ----- A condition on the code

  /** The last block returns and no other block does. */
  predicate LastBlockIsTheExit(func: Func) {
    forall k | 0 <= k < |func.blocks| :: func.blocks[k].terminator.Ret? <==> k == |func.blocks| - 1
  }

  predicate LastBlocksAreTheExits(p: Program) {
    forall m, f | 0 <= m < |p| && 0 <= f < |p[m].functions| :: LastBlockIsTheExit(p[m].functions[f])
  }

  lemma {:induction false} VisitsLeaveOnce(p: Program, m: nat, f: nat, visits: Visits)
    requires LastBlocksAreTheExits(p) && ValidVisits(p, m, f, visits)
    ensures SingleExitVisits(p, m, f, visits)
    decreases visits, 0
  {
    CallsLeaveOnce(p, m, InstrsOf(p, m, f, visits.block), visits.calls);
    assert LastBlockIsTheExit(p[m].functions[f]);
    if visits.More? {
      VisitsLeaveOnce(p, m, f, visits.next);
    }
  }

  lemma {:induction false} CallsLeaveOnce(p: Program, m: nat, instrs: seq<Instr>, calls: Calls)
    requires LastBlocksAreTheExits(p) && m < |p| && ValidCalls(p, m, instrs, calls)
    ensures SingleExitCalls(p, calls)
    decreases calls, |instrs|
  {
    if instrs != [] {
      if Monitored(p[m].names, instrs[0]) {
        VisitsLeaveOnce(p, calls.act.mod, calls.act.fn, calls.act.visits);
        CallsLeaveOnce(p, m, instrs[1..], calls.rest);
      } else {
        CallsLeaveOnce(p, m, instrs[1..], calls);
      }
    }
  }

  /** When the last block of every function is its unique return block, the monitor accepts every
      execution of the instrumented program, in both modes. */
  lemma {:induction false} UniqueReturnBlocksAreAccepted(p: Program, data: MonitorData, trace: bool, act: Activation)
    requires SourceProgram(p) && TablesDescribe(p, data) && LastBlocksAreTheExits(p)
    requires ValidActivation(Instrumented(p), act)
    requires HasFunc(p, act.mod, act.fn) && IsEntrypoint(data[act.mod].functions[act.fn])
    ensures Accepts(data, trace, Emits(Instrumented(p), act))
  {
    SameActivations(p, act);
    VisitsLeaveOnce(p, act.mod, act.fn, act.visits);
    InstrumentedExecutionIsAccepted(p, data, trace, act);
  }
}
