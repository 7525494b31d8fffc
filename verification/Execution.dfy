/**
 Executions of a set of linked modules, and the signals an execution of the instrumented code sends.
 An execution that terminates is the tree of its function activations: the blocks each of them went
 through and the calls made in each block.
 */
module Execution {
  import opened MonitorTables
  import opened MonitorSpec
  import opened Injector

  /** A binary or shared library: function i has id i.  Ignored functions are not part of it. */
  datatype Unit = Unit(functions: seq<Func>, names: Names)

  type Program = seq<Unit>

  datatype Activation = Activation(mod: nat, fn: nat, visits: Visits)
  datatype Visits = Last(block: nat, calls: Calls) | More(block: nat, calls: Calls, next: Visits)
  datatype Calls = NoCall | OneCall(act: Activation, rest: Calls)

  predicate HasFunc(p: Program, m: nat, f: nat) {
    m < |p| && f < |p[m].functions|
  }

  predicate Defined(p: Program, m: nat, f: nat) {
    HasFunc(p, m, f) && p[m].functions[f].blocks != []
  }

  predicate HasBlock(p: Program, m: nat, f: nat, b: nat) {
    HasFunc(p, m, f) && b < |p[m].functions[f].blocks|
  }

  // ----- Which executions are possible

  /** The function that a call to name g made in module m runs: the module's own definition, or, if
      it only has a declaration, whichever definition of that name the linker found elsewhere. */
  predicate Resolves(p: Program, m: nat, g: string, m': nat, f': nat) {
    && m < |p| && g in p[m].names.ids && HasFunc(p, m, p[m].names.ids[g])
    && var f := p[m].names.ids[g];
    && Defined(p, m', f')
    && if Defined(p, m, f) then (m', f') == (m, f) else m' != m && p[m'].functions[f'].name == g
  }

  predicate ValidActivation(p: Program, act: Activation)
    decreases act, 0
  {
    && Defined(p, act.mod, act.fn)
    && act.visits.block == FUNCTION_ENTRY_BLOCK_ID
    && ValidVisits(p, act.mod, act.fn, act.visits)
  }

  predicate ValidVisits(p: Program, m: nat, f: nat, visits: Visits)
    decreases visits, 0
  {
    && HasBlock(p, m, f, visits.block)
    && var b := p[m].functions[f].blocks[visits.block];
    && ValidCalls(p, m, b.instrs, visits.calls)
    && match visits
       case Last(_, _) => b.terminator.Ret?
       case More(_, _, next) =>
         b.terminator.Branch? && next.block in b.terminator.succs && ValidVisits(p, m, f, next)
  }

  /** calls are the activations made by the instructions, in order.  Functions that are ignored are
      not instrumented, so what they do is not recorded. */
  predicate ValidCalls(p: Program, m: nat, instrs: seq<Instr>, calls: Calls)
    requires m < |p|
    decreases calls, |instrs|
  {
    if instrs == [] then calls.NoCall?
    else if Monitored(p[m].names, instrs[0]) then
      && calls.OneCall?
      && Resolves(p, m, instrs[0].callee, calls.act.mod, calls.act.fn)
      && ValidActivation(p, calls.act)
      && ValidCalls(p, m, instrs[1..], calls.rest)
    else
      ValidCalls(p, m, instrs[1..], calls)
  }

  // ----- What they send

  function Emits(p: Program, act: Activation): seq<Signal>
    decreases act, 0
  {
    EmitVisits(p, act.mod, act.fn, act.visits)
  }

  function EmitVisits(p: Program, m: nat, f: nat, visits: Visits): seq<Signal>
    decreases visits, 0
  {
    (if HasBlock(p, m, f, visits.block) then
       EmitInstrs(p, m, p[m].functions[f].blocks[visits.block].instrs, visits.calls)
     else [])
    + if visits.More? then EmitVisits(p, m, f, visits.next) else []
  }

  function EmitInstrs(p: Program, m: nat, instrs: seq<Instr>, calls: Calls): seq<Signal>
    requires m < |p|
    decreases calls, |instrs|
  {
    if instrs == [] then []
    else if Monitored(p[m].names, instrs[0]) then
      if calls.OneCall? then Emits(p, calls.act) + EmitInstrs(p, m, instrs[1..], calls.rest)
      else EmitInstrs(p, m, instrs[1..], calls)
    else
      EmitInstr(m, instrs[0]) + EmitInstrs(p, m, instrs[1..], calls)
  }

  /** The emitters of include/picon/injected_code.c: the module id is the one the monitor gave to
      the binary; block is 0 except in the two jump events. */
  function EmitInstr(m: nat, i: Instr): seq<Signal> {
    if i.Cfi? then [Signal(i.event, m, i.id, i.block)] else []
  }

  // ----- The instrumented program

  /** What the pass can assume of the modules it compiles. */
  ghost predicate SourceProgram(p: Program) {
    forall m | 0 <= m < |p| :: SourceUnit(p[m])
  }

  ghost predicate SourceUnit(u: Unit) {
    && (forall g | g in u.names.ids :: u.names.ids[g] < |u.functions| && u.functions[u.names.ids[g]].name == g)
    && forall f | 0 <= f < |u.functions| ::
         && u.functions[f].name in u.names.ids && u.names.ids[u.functions[f].name] == f
         && u.functions[f].name !in u.names.ignored
         && forall k | 0 <= k < |u.functions[f].blocks| :: SourceBlock(u, u.functions[f].blocks, k)
  }

  /** Callees are identified, no instruction is an instrumentation of an earlier pass, and, as in any
      LLVM function, no block branches to the entry block. */
  ghost predicate SourceBlock(u: Unit, blocks: seq<Block>, k: nat)
    requires k < |blocks|
  {
    && Identified(u.names, blocks[k].instrs)
    && (forall i | i in blocks[k].instrs :: !Inserted(i))
    && (blocks[k].terminator.Branch? ==>
        forall s | s in blocks[k].terminator.succs :: 0 < s < |blocks|)
  }

  ghost function InstrumentedBlocks(u: Unit, f: nat): (r: seq<Block>)
    requires SourceUnit(u) && f < |u.functions|
    ensures |r| == |u.functions[f].blocks|
  {
    var func := u.functions[f];
    seq(|func.blocks|, k requires 0 <= k < |func.blocks| =>
      assert SourceBlock(u, func.blocks, k);
      InjectedBlock(u.names, f, func.traced, k, k == |func.blocks| - 1, func.blocks[k]))
  }

  ghost function InstrumentedUnit(u: Unit): (r: Unit)
    requires SourceUnit(u)
    ensures r.names == u.names && |r.functions| == |u.functions|
    ensures forall f | 0 <= f < |u.functions| :: |r.functions[f].blocks| == |u.functions[f].blocks|
  {
    u.(functions := seq(|u.functions|, f requires 0 <= f < |u.functions| =>
      u.functions[f].(blocks := InstrumentedBlocks(u, f))))
  }

  ghost function Instrumented(p: Program): (r: Program)
    requires SourceProgram(p)
    ensures |r| == |p|
    ensures forall m | 0 <= m < |p| :: SourceUnit(p[m]) && r[m] == InstrumentedUnit(p[m])
  {
    seq(|p|, m requires 0 <= m < |p| => InstrumentedUnit(p[m]))
  }

  lemma {:induction false} InstrumentedBlockIs(p: Program, m: nat, f: nat, b: nat)
    requires SourceProgram(p) && HasBlock(p, m, f, b)
    ensures SourceUnit(p[m]) && SourceBlock(p[m], p[m].functions[f].blocks, b)
    ensures HasBlock(Instrumented(p), m, f, b)
    ensures Instrumented(p)[m].functions[f].blocks[b] ==
            InjectedBlock(p[m].names, f, p[m].functions[f].traced, b, b == |p[m].functions[f].blocks| - 1,
                          p[m].functions[f].blocks[b])
  {
    assert SourceBlock(p[m], p[m].functions[f].blocks, b);
  }

  // ----- The instrumented program runs as the original one does

  lemma {:induction false} EraseNothing(instrs: seq<Instr>)
    requires forall i | i in instrs :: !Inserted(i)
    ensures Erase(instrs) == instrs
    decreases |instrs|
  {
    if instrs != [] {
      EraseNothing(instrs[1..]);
    }
  }

  lemma {:induction false} SameCalls(p: Program, m: nat, instrs: seq<Instr>, calls: Calls)
    requires SourceProgram(p) && m < |p|
    ensures ValidCalls(Instrumented(p), m, instrs, calls) <==> ValidCalls(p, m, Erase(instrs), calls)
    decreases calls, |instrs|
  {
    if instrs != [] {
      var i := instrs[0];
      if Inserted(i) {
        assert Erase(instrs) == Erase(instrs[1..]);
        SameCalls(p, m, instrs[1..], calls);
      } else {
        assert Erase(instrs)[0] == i && Erase(instrs)[1..] == Erase(instrs[1..]);
        if !Monitored(p[m].names, i) {
          SameCalls(p, m, instrs[1..], calls);
        } else if calls.OneCall? {
          SameActivations(p, calls.act);
          SameCalls(p, m, instrs[1..], calls.rest);
          SameResolution(p, m, i.callee, calls.act.mod, calls.act.fn);
        }
      }
    }
  }

  lemma {:induction false} SameResolution(p: Program, m: nat, g: string, m': nat, f': nat)
    requires SourceProgram(p) && m < |p|
    ensures Resolves(Instrumented(p), m, g, m', f') <==> Resolves(p, m, g, m', f')
  {
    assert forall k, f | HasFunc(p, k, f) :: Defined(Instrumented(p), k, f) <==> Defined(p, k, f);
  }

  lemma {:induction false} SameVisits(p: Program, m: nat, f: nat, visits: Visits)
    requires SourceProgram(p)
    ensures ValidVisits(Instrumented(p), m, f, visits) <==> ValidVisits(p, m, f, visits)
    decreases visits, 0
  {
    if HasBlock(p, m, f, visits.block) {
      var func := p[m].functions[f];
      var b := func.blocks[visits.block];
      InstrumentedBlockIs(p, m, f, visits.block);
      InjectionOnlyAdds(p[m].names, f, func.traced, visits.block, visits.block == |func.blocks| - 1, b);
      EraseNothing(b.instrs);
      SameCalls(p, m, Instrumented(p)[m].functions[f].blocks[visits.block].instrs, visits.calls);
      if visits.More? {
        SameVisits(p, m, f, visits.next);
      }
    }
  }

  /** The executions of the instrumented program are those of the program: same calls, same branches. */
  lemma {:induction false} SameActivations(p: Program, act: Activation)
    requires SourceProgram(p)
    ensures ValidActivation(Instrumented(p), act) <==> ValidActivation(p, act)
    decreases act, 0
  {
    SameVisits(p, act.mod, act.fn, act.visits);
  }
}
