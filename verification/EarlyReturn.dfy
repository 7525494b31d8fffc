/**
 The condition of the end-to-end theorem cannot be dropped: a program whose main function returns from
 two blocks, in an execution that leaves through the one that is not the last.
 */
module EarlyReturn {
  import opened Wrappers
  import opened MonitorTables
  import opened MonitorSpec
  import opened Injector
  import opened Execution
  import opened EndToEnd
  import opened Acceptance

  /** int main(): the first block branches to either of two blocks that return. */
  function EarlyReturn(): Program {
    var blocks := [Block([], Branch([1, 2])), Block([], Ret), Block([], Ret)];
    [Unit([Func("main", Main, true, blocks)], Names(map["main" := 0], {}))]
  }

  /** The tables of that program once loaded. */
  function EarlyReturnTables(): MonitorData {
    var graph := [Some([false, true, true]), None, None];
    [ModuleData([FunctionData("main", Main, 3, graph, [0, 0, 0])], [None], [0])]
  }

  /** It enters main, branches to the block in the middle and returns. */
  function EarlyExecution(): Activation {
    Activation(0, 0, More(0, NoCall, Last(1, NoCall)))
  }

  lemma {:induction false} EarlyReturnIsSource()
    ensures SourceProgram(EarlyReturn())
    ensures ValidActivation(EarlyReturn(), EarlyExecution())
    ensures !SingleExit(EarlyReturn(), EarlyExecution())
  {
    var p := EarlyReturn();
    assert SourceUnit(p[0]) by {
      assert forall k | 0 <= k < 3 :: SourceBlock(p[0], p[0].functions[0].blocks, k);
    }
    assert !IsLast(p, 0, 0, 0) && !IsLast(p, 0, 0, 1);
  }

  lemma {:induction false} EarlyTablesAreWellFormed()
    ensures WellFormed(EarlyReturnTables())
  {
    var data := EarlyReturnTables();
    assert WellFormedFunction(data[0].functions[0]);
    assert WellFormedModule(data[0]);
  }

  lemma {:induction false} EarlyBlock(m: nat, f: nat, k: nat)
    requires HasBlock(EarlyReturn(), m, f, k)
    ensures var block := EarlyReturn()[m].functions[f].blocks[k];
            && m == 0 && f == 0 && k < 3 && block.instrs == []
            && forall s | block.terminator.Branch? && s in block.terminator.succs ::
                 JumpEdge(EarlyReturnTables(), m, f, k, s)
  {
    if k == 0 {
      forall s | s in [1, 2] ensures JumpEdge(EarlyReturnTables(), 0, 0, 0, s) {
        assert [false, true, true][s];
      }
    }
  }

  lemma {:induction false} EarlyTablesMatch()
    requires SourceProgram(EarlyReturn())
    ensures TablesMatch(EarlyReturn(), EarlyReturnTables())
  {
    var p, data := EarlyReturn(), EarlyReturnTables();
    EarlyTablesAreWellFormed();
    forall m: nat, f: nat, k: nat, s: nat | HasBlock(p, m, f, k) && p[m].functions[f].traced
        && p[m].functions[f].blocks[k].terminator.Branch? && s in p[m].functions[f].blocks[k].terminator.succs
      ensures JumpEdge(data, m, f, k, s)
    {
      EarlyBlock(m, f, k);
    }
    forall m: nat, f: nat, k: nat | HasBlock(p, m, f, k) ensures p[m].functions[f].blocks[k].instrs == [] {
      EarlyBlock(m, f, k);
    }
  }

  lemma {:induction false} EarlyReturnIsDescribed()
    requires SourceProgram(EarlyReturn())
    ensures TablesDescribe(EarlyReturn(), EarlyReturnTables())
  {
    var p, data := EarlyReturn(), EarlyReturnTables();
    EarlyTablesMatch();
    forall m: nat, g, m': nat, f': nat | Resolves(p, m, g, m', f')
      ensures GoesTo(data, m, FunctionId(p, m, g), m', f')
    {
      assert m == 0 && FunctionId(p, m, g) == 0;
    }
  }

  /** The tables describe the program, the execution that returns from the block in the middle is one of
      the executions of the instrumented program, and the monitor does not accept it. */
  lemma {:induction false} EarlyReturnIsRefused(trace: bool)
    ensures SourceProgram(EarlyReturn()) && TablesDescribe(EarlyReturn(), EarlyReturnTables())
    ensures ValidActivation(Instrumented(EarlyReturn()), EarlyExecution())
    ensures !Accepts(EarlyReturnTables(), trace, Emits(Instrumented(EarlyReturn()), EarlyExecution()))
  {
    EarlyReturnIsSource();
    EarlyReturnIsDescribed();
    SameActivations(EarlyReturn(), EarlyExecution());
    InstrumentedExecutionIsAccepted(EarlyReturn(), EarlyReturnTables(), trace, EarlyExecution());
  }

  // ----- Leaving through the last block does not mean returning from it

  /** An untraced int main() whose last block branches back to the block in the middle, which returns. */
  function LateReturn(): Program {
    var blocks := [Block([], Branch([1, 2])), Block([], Ret), Block([], Branch([1]))];
    [Unit([Func("main", Main, false, blocks)], Names(map["main" := 0], {}))]
  }

  /** It goes through the last block, which sends the EXIT, and returns in silence from another one. */
  lemma {:induction false} SilentReturnIsSingleExit()
    ensures SourceProgram(LateReturn())
    ensures var act := Activation(0, 0, More(0, NoCall, More(2, NoCall, Last(1, NoCall))));
            ValidActivation(LateReturn(), act) && SingleExit(LateReturn(), act)
  {
    var p := LateReturn();
    assert SourceUnit(p[0]) by {
      assert forall k | 0 <= k < 3 :: SourceBlock(p[0], p[0].functions[0].blocks, k);
    }
    var last := Last(1, NoCall);
    assert ValidVisits(p, 0, 0, last) && Silent(p, 0, 0, last);
    assert ValidVisits(p, 0, 0, More(2, NoCall, last)) && SingleExitVisits(p, 0, 0, More(2, NoCall, last));
  }
}
