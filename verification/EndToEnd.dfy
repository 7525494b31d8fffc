/**
 The instrumentation and the monitor together: which executions of the instrumented program send a
 stream of signals that the monitor accepts, when its tables describe the program.
 */
module EndToEnd {
  import opened MonitorTables
  import opened MonitorSpec
  import opened Injector
  import opened Execution

  // ----- The tables of a program

  function FunctionId(p: Program, m: nat, g: string): nat
    requires m < |p| && g in p[m].names.ids
  {
    p[m].names.ids[g]
  }

  /** What the tables must say for every execution to find its edges: the call edges, and the jump edges
      of the functions whose blocks are traced.  They may be the tables of the first
      binaries only, as in the loading phase. */
  ghost predicate TablesMatch(p: Program, data: MonitorData)
    requires SourceProgram(p)
  {
    && WellFormed(data)
    && |data| <= |p|
    && (forall m | 0 <= m < |data| :: |data[m].functions| == |p[m].functions|)
    && (forall m: nat, f: nat, k: nat, i | m < |data| && HasBlock(p, m, f, k)
          && i in p[m].functions[f].blocks[k].instrs && Monitored(p[m].names, i) ::
          i.callee in p[m].names.ids ==> CallEdge(data, m, f, p[m].names.ids[i.callee]))
    && (forall m: nat, f: nat, k: nat, s: nat | m < |data| && HasBlock(p, m, f, k) && p[m].functions[f].traced
          && p[m].functions[f].blocks[k].terminator.Branch? && s in p[m].functions[f].blocks[k].terminator.succs ::
          JumpEdge(data, m, f, k, s))
  }

  /** The function that the monitor expects a call to the local id g of module m to enter is (k, l). */
  predicate GoesTo(data: MonitorData, m: nat, g: nat, k: nat, l: nat) {
    && HasFunction(data, m, g) && (data[m].functions[g].flags.External? ==> g < |data[m].relocations|)
    && Target(data, m, g) == (k, l)
  }

  /** Besides, all binaries are there and the relocations agree with the linker. */
  ghost predicate TablesDescribe(p: Program, data: MonitorData)
    requires SourceProgram(p)
  {
    && TablesMatch(p, data) && |data| == |p|
    && (forall m: nat, g, m': nat, f': nat | Resolves(p, m, g, m', f') :: GoesTo(data, m, FunctionId(p, m, g), m', f'))
  }

  // ----- What an execution of the instrumented program sends, read off the original program

  predicate IsLast(p: Program, m: nat, f: nat, b: nat) {
    HasBlock(p, m, f, b) && b == |p[m].functions[f].blocks| - 1
  }

  predicate Traced(p: Program, m: nat, f: nat) {
    HasFunc(p, m, f) && p[m].functions[f].traced
  }

  function InstrsOf(p: Program, m: nat, f: nat, b: nat): seq<Instr> {
    if HasBlock(p, m, f, b) then p[m].functions[f].blocks[b].instrs else []
  }

  /** The events that a block sends before its calls and after them. */
  function Begins(m: nat, f: nat, traced: bool, b: nat): seq<Signal> {
    if b == FUNCTION_ENTRY_BLOCK_ID then [Signal(Enter, m, f, 0)]
    else if traced then [Signal(AfterJump, m, f, b)]
    else []
  }

  function Ends(m: nat, f: nat, traced: bool, b: nat, last: bool): seq<Signal> {
    if last then [Signal(Exit, m, f, 0)] else if traced then [Signal(BeforeJump, m, f, b)] else []
  }

  function Head(p: Program, m: nat, f: nat, b: nat): seq<Signal> {
    Begins(m, f, Traced(p, m, f), b)
  }

  function Tail(p: Program, m: nat, f: nat, b: nat): seq<Signal> {
    Ends(m, f, Traced(p, m, f), b, IsLast(p, m, f, b))
  }

  /** From the ENTER of a function to the end of its activation. */
  function Trace(p: Program, act: Activation): seq<Signal>
    decreases act, 0
  {
    Head(p, act.mod, act.fn, act.visits.block) + TraceVisits(p, act.mod, act.fn, act.visits)
  }

  function TraceVisits(p: Program, m: nat, f: nat, visits: Visits): seq<Signal>
    decreases visits, 0
  {
    TraceCalls(p, m, InstrsOf(p, m, f, visits.block), visits.calls) + Tail(p, m, f, visits.block) +
    if visits.More? then Head(p, m, f, visits.next.block) + TraceVisits(p, m, f, visits.next) else []
  }

  function TraceCalls(p: Program, m: nat, instrs: seq<Instr>, calls: Calls): seq<Signal>
    decreases calls, |instrs|
  {
    if instrs == [] || m >= |p| then []
    else if Monitored(p[m].names, instrs[0]) && instrs[0].callee in p[m].names.ids && calls.OneCall? then
      var id := p[m].names.ids[instrs[0].callee];
      [Signal(Call, m, id, 0)] + Trace(p, calls.act) + [Signal(Returned, m, id, 0)] +
      TraceCalls(p, m, instrs[1..], calls.rest)
    else
      TraceCalls(p, m, instrs[1..], calls)
  }

  // ----- The instrumented code sends it

  predicate CallFree(names: Names, instrs: seq<Instr>) {
    forall i | i in instrs :: !Monitored(names, i)
  }

  lemma {:induction false} EmitCallFree(p: Program, m: nat, instrs: seq<Instr>, calls: Calls)
    requires m < |p| && CallFree(p[m].names, instrs)
    ensures EmitInstrs(p, m, instrs, calls) == EmitInstrs(p, m, instrs, NoCall)
    decreases |instrs|
  {
    if instrs != [] {
      EmitCallFree(p, m, instrs[1..], calls);
    }
  }

  lemma {:induction false} EmitBefore(p: Program, m: nat, a: seq<Instr>, b: seq<Instr>, calls: Calls)
    requires m < |p| && CallFree(p[m].names, a)
    ensures EmitInstrs(p, m, a + b, calls) == EmitInstrs(p, m, a, NoCall) + EmitInstrs(p, m, b, calls)
    decreases |a|
  {
    if a == [] {
      assert a + b == b;
    } else {
      assert (a + b)[1..] == a[1..] + b;
      EmitBefore(p, m, a[1..], b, calls);
    }
  }

  lemma {:induction false} EmitAfter(p: Program, m: nat, a: seq<Instr>, b: seq<Instr>, calls: Calls)
    requires m < |p| && CallFree(p[m].names, b)
    ensures EmitInstrs(p, m, a + b, calls) == EmitInstrs(p, m, a, calls) + EmitInstrs(p, m, b, NoCall)
    decreases |a|
  {
    if a == [] {
      assert a + b == b;
      EmitCallFree(p, m, b, calls);
    } else {
      assert (a + b)[1..] == a[1..] + b;
      if Monitored(p[m].names, a[0]) && calls.OneCall? {
        EmitAfter(p, m, a[1..], b, calls.rest);
      } else {
        EmitAfter(p, m, a[1..], b, calls);
      }
    }
  }

  lemma {:induction false} InsertBetween(instrs: seq<Instr>, at: nat, new_: seq<Instr>)
    requires at <= |instrs|
    ensures instrs == instrs[..at] + instrs[at..]
    ensures Insert(instrs, at, new_) == instrs[..at] + (new_ + instrs[at..])
  {
  }

  /** An insertion after the leading phi nodes is sent first, because those send nothing. */
  lemma {:induction false} EmitInserted(p: Program, m: nat, instrs: seq<Instr>, skipDebug: bool, new_: seq<Instr>,
                                        calls: Calls)
    requires m < |p| && CallFree(p[m].names, new_)
    ensures EmitInstrs(p, m, Insert(instrs, Leading(instrs, skipDebug), new_), calls) ==
            EmitInstrs(p, m, new_, NoCall) + EmitInstrs(p, m, instrs, calls)
  {
    var n := Leading(instrs, skipDebug);
    var lead, rest := instrs[..n], instrs[n..];
    EmitLeading(p, m, lead);
    InsertBetween(instrs, n, new_);
    EmitBefore(p, m, lead, rest, calls);
    EmitBefore(p, m, lead, new_ + rest, calls);
    EmitBefore(p, m, new_, rest, calls);
  }

  lemma {:induction false} EmitLeading(p: Program, m: nat, lead: seq<Instr>)
    requires m < |p| && forall k | 0 <= k < |lead| :: lead[k].Phi? || lead[k].Debug?
    ensures CallFree(p[m].names, lead) && EmitInstrs(p, m, lead, NoCall) == []
    decreases |lead|
  {
    if lead != [] {
      EmitLeading(p, m, lead[1..]);
    }
  }

  lemma {:induction false} EmitOne(p: Program, m: nat, i: Instr)
    requires m < |p| && i.Cfi?
    ensures EmitInstrs(p, m, [i], NoCall) == [Signal(i.event, m, i.id, i.block)]
    ensures EmitInstrs(p, m, [ReturnAddress, i], NoCall) == [Signal(i.event, m, i.id, i.block)]
  {
    assert [ReturnAddress, i][1..] == [i];
  }

  lemma {:induction false} EmitJumps(p: Program, m: nat, f: nat, b: nat, last: bool, block: Block, calls: Calls)
    requires m < |p|
    ensures EmitInstrs(p, m, BBLeaveBlock(f, b, last, BBEnterBlock(f, b, block)).instrs, calls) ==
            (if b == 0 then [] else [Signal(AfterJump, m, f, b)]) + EmitInstrs(p, m, block.instrs, calls) +
            (if last then [] else [Signal(BeforeJump, m, f, b)])
  {
    var entered := BBEnterBlock(f, b, block);
    EmitInserted(p, m, block.instrs, true, [Cfi(AfterJump, f, b)], calls);
    EmitAfter(p, m, entered.instrs, [Cfi(BeforeJump, f, b)], calls);
    EmitOne(p, m, Cfi(AfterJump, f, b));
    EmitOne(p, m, Cfi(BeforeJump, f, b));
  }

  lemma {:induction false} EmitEnds(p: Program, m: nat, f: nat, b: nat, last: bool, block: Block, calls: Calls)
    requires m < |p|
    ensures EmitInstrs(p, m, MexitBlock(f, last, MentryBlock(f, b, block)).instrs, calls) ==
            (if b == 0 then [Signal(Enter, m, f, 0)] else []) + EmitInstrs(p, m, block.instrs, calls) +
            (if last then [Signal(Exit, m, f, 0)] else [])
  {
    var begun := MentryBlock(f, b, block);
    EmitInserted(p, m, block.instrs, false, [ReturnAddress, Cfi(Enter, f, 0)], calls);
    EmitAfter(p, m, begun.instrs, [ReturnAddress, Cfi(Exit, f, 0)], calls);
    EmitOne(p, m, Cfi(Enter, f, 0));
    EmitOne(p, m, Cfi(Exit, f, 0));
  }

  /** The sends of an instrumented block: its head, what its calls make, its tail. */
  lemma {:induction false} EmitBlock(p: Program, m: nat, f: nat, b: nat, calls: Calls)
    requires SourceProgram(p) && HasBlock(p, m, f, b)
    requires Identified(p[m].names, p[m].functions[f].blocks[b].instrs)
    ensures EmitInstrs(Instrumented(p), m, InstrsOf(Instrumented(p), m, f, b), calls) ==
            Head(p, m, f, b) +
            EmitInstrs(Instrumented(p), m, WithCalls(p[m].names, InstrsOf(p, m, f, b)), calls) +
            Tail(p, m, f, b)
  {
    var func := p[m].functions[f];
    InstrumentedBlockIs(p, m, f, b);
    EmitInjected(Instrumented(p), m, p[m].names, f, func.traced, b, b == |func.blocks| - 1, func.blocks[b], calls);
  }

  lemma {:induction false} EmitInjected(q: Program, m: nat, names: Names, f: nat, traced: bool, b: nat, last: bool,
                                        block: Block, calls: Calls)
    requires m < |q| && Identified(names, block.instrs)
    ensures EmitInstrs(q, m, InjectedBlock(names, f, traced, b, last, block).instrs, calls) ==
            Begins(m, f, traced, b) + EmitInstrs(q, m, WithCalls(names, block.instrs), calls) +
            Ends(m, f, traced, b, last)
  {
    var called := McallBlock(names, block);
    var jumped := if traced then BBLeaveBlock(f, b, last, BBEnterBlock(f, b, called)) else called;
    EmitEnds(q, m, f, b, last, jumped, calls);
    if traced {
      EmitJumps(q, m, f, b, last, called, calls);
    }
    OnlyEnds(m, f, traced, b, last, EmitInstrs(q, m, called.instrs, calls));
  }

  /** The insertions into the first and the last block exclude those of the branches. */
  lemma {:induction false} OnlyEnds(m: nat, f: nat, traced: bool, b: nat, last: bool, sent: seq<Signal>)
    ensures var jumps := if traced then
                           (if b == 0 then [] else [Signal(AfterJump, m, f, b)]) + sent +
                           (if last then [] else [Signal(BeforeJump, m, f, b)])
                         else sent;
            (if b == 0 then [Signal(Enter, m, f, 0)] else []) + jumps + (if last then [Signal(Exit, m, f, 0)] else [])
            == Begins(m, f, traced, b) + sent + Ends(m, f, traced, b, last)
  {
  }

  lemma {:induction false} EmitMonitoredCall(q: Program, m: nat, id: nat, i: Instr, more: seq<Instr>, calls: Calls)
    requires m < |q| && Monitored(q[m].names, i) && calls.OneCall?
    ensures EmitInstrs(q, m, [Cfi(Call, id, 0), i, Cfi(Returned, id, 0)] + more, calls) ==
            [Signal(Call, m, id, 0)] + Emits(q, calls.act) + [Signal(Returned, m, id, 0)] +
            EmitInstrs(q, m, more, calls.rest)
  {
    var call, returned := Cfi(Call, id, 0), Cfi(Returned, id, 0);
    var tail := [returned] + more;
    assert [call, i, returned] + more == [call] + ([i] + tail);
    EmitBefore(q, m, [call], [i] + tail, calls);
    EmitCall(q, m, i, tail, calls);
    EmitBefore(q, m, [returned], more, calls.rest);
    EmitOne(q, m, call);
    EmitOne(q, m, returned);
    Regroup([Signal(Call, m, id, 0)], Emits(q, calls.act), [Signal(Returned, m, id, 0)],
            EmitInstrs(q, m, more, calls.rest));
  }

  lemma {:induction false} EmitCall(q: Program, m: nat, i: Instr, more: seq<Instr>, calls: Calls)
    requires m < |q| && Monitored(q[m].names, i) && calls.OneCall?
    ensures EmitInstrs(q, m, [i] + more, calls) == Emits(q, calls.act) + EmitInstrs(q, m, more, calls.rest)
  {
    assert ([i] + more)[1..] == more;
  }

  lemma {:induction false} EmitsCalls(p: Program, q: Program, m: nat, instrs: seq<Instr>, calls: Calls)
    requires SourceProgram(p) && q == Instrumented(p) && m < |p| && Identified(p[m].names, instrs)
    requires forall i | i in instrs :: !Inserted(i)
    requires ValidCalls(p, m, instrs, calls)
    ensures EmitInstrs(q, m, WithCalls(p[m].names, instrs), calls) == TraceCalls(p, m, instrs, calls)
    decreases calls, |instrs|
  {
    if instrs != [] {
      var i := instrs[0];
      assert i in instrs;
      var more := WithCalls(p[m].names, instrs[1..]);
      if Monitored(p[m].names, i) {
        EmitMonitoredCall(q, m, p[m].names.ids[i.callee], i, more, calls);
        EmitsTrace(p, q, calls.act);
        EmitsCalls(p, q, m, instrs[1..], calls.rest);
      } else {
        assert ([i] + more)[1..] == more;
        EmitsCalls(p, q, m, instrs[1..], calls);
      }
    }
  }

  lemma {:induction false} EmitsBlock(p: Program, q: Program, m: nat, f: nat, visits: Visits)
    requires SourceProgram(p) && q == Instrumented(p) && ValidVisits(p, m, f, visits)
    ensures HasBlock(q, m, f, visits.block)
    ensures EmitInstrs(q, m, q[m].functions[f].blocks[visits.block].instrs, visits.calls) ==
            Head(p, m, f, visits.block) + TraceCalls(p, m, InstrsOf(p, m, f, visits.block), visits.calls) +
            Tail(p, m, f, visits.block)
    decreases visits, 0
  {
    InstrumentedBlockIs(p, m, f, visits.block);
    EmitBlock(p, m, f, visits.block, visits.calls);
    EmitsCalls(p, q, m, InstrsOf(p, m, f, visits.block), visits.calls);
  }

  lemma {:induction false} EmitsVisits(p: Program, q: Program, m: nat, f: nat, visits: Visits)
    requires SourceProgram(p) && q == Instrumented(p) && ValidVisits(p, m, f, visits)
    ensures EmitVisits(q, m, f, visits) == Head(p, m, f, visits.block) + TraceVisits(p, m, f, visits)
    decreases visits, 1
  {
    EmitsBlock(p, q, m, f, visits);
    if visits.More? {
      EmitsVisits(p, q, m, f, visits.next);
    }
    SameUnfolding(p, q, m, f, visits);
  }

  lemma {:induction false} SameUnfolding(p: Program, q: Program, m: nat, f: nat, visits: Visits)
    requires HasBlock(q, m, f, visits.block)
    requires EmitInstrs(q, m, q[m].functions[f].blocks[visits.block].instrs, visits.calls) ==
             Head(p, m, f, visits.block) + TraceCalls(p, m, InstrsOf(p, m, f, visits.block), visits.calls) +
             Tail(p, m, f, visits.block)
    requires visits.More? ==>
             EmitVisits(q, m, f, visits.next) == Head(p, m, f, visits.next.block) + TraceVisits(p, m, f, visits.next)
    ensures EmitVisits(q, m, f, visits) == Head(p, m, f, visits.block) + TraceVisits(p, m, f, visits)
  {
    var calls, tail := TraceCalls(p, m, InstrsOf(p, m, f, visits.block), visits.calls), Tail(p, m, f, visits.block);
    var rest := if visits.More? then Head(p, m, f, visits.next.block) + TraceVisits(p, m, f, visits.next) else [];
    assert TraceVisits(p, m, f, visits) == calls + tail + rest;
    assert EmitVisits(q, m, f, visits) == Head(p, m, f, visits.block) + calls + tail + rest;
    Regroup(Head(p, m, f, visits.block), calls, tail, rest);
  }

  lemma {:induction false} Regroup(a: seq<Signal>, b: seq<Signal>, c: seq<Signal>, d: seq<Signal>)
    ensures a + b + c + d == a + (b + c + d)
  {
  }

  /** Every execution of the instrumented program sends exactly the trace of that execution. */
  lemma {:induction false} EmitsTrace(p: Program, q: Program, act: Activation)
    requires SourceProgram(p) && q == Instrumented(p) && ValidActivation(p, act)
    ensures Emits(q, act) == Trace(p, act)
    decreases act, 2
  {
    EmitsVisits(p, q, act.mod, act.fn, act.visits);
  }
}
