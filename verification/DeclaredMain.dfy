/**
 A call to main from a binary that only declares it.  The pass flags main as Main wherever it meets it, so
 the monitor expects the call to enter the declaration.
 */
module DeclaredMain {
  import opened MonitorTables
  import opened MonitorSpec
  import opened Injector
  import opened Execution
  import opened EndToEnd
  import opened Acceptance
  import opened Linked
  import opened Identification

  /** finish(), a destructor of the first binary, calls main(), which only the second one defines. */
  function Again(): Program {
    var finish := Func("finish", Fini, false, [Block([CallTo("main")], Ret)]);
    var declared := Func("main", Main, false, []);
    var main := Func("main", Main, false, [Block([], Ret)]);
    [Unit([finish, declared], Names(map["finish" := 0, "main" := 1], {})), Unit([main], Names(map["main" := 0], {}))]
  }

  function FinishExecution(): Activation {
    Activation(0, 0, Last(0, OneCall(Activation(1, 0, Last(0, NoCall)), NoCall)))
  }

  /** The flag of the declaration is the one that the pass gives it. */
  lemma {:induction false} DeclarationIsFlaggedMain()
    ensures RoleOf(UnitFunction("main", Declaration, false)) == Settles(Again()[0].functions[1].flag)
  {
  }

  lemma {:induction false} AgainIsSource()
    ensures SourceProgram(Again())
  {
    var p := Again();
    assert SourceUnit(p[0]) by {
      assert SourceBlock(p[0], p[0].functions[0].blocks, 0);
    }
    assert SourceUnit(p[1]) by {
      assert SourceBlock(p[1], p[1].functions[0].blocks, 0);
    }
  }

  lemma {:induction false} FinishIsAnExecution()
    requires SourceProgram(Again())
    ensures IsExecution(Again(), FinishExecution()) && SingleExit(Again(), FinishExecution())
  {
    var p, act := Again(), FinishExecution();
    var main := act.visits.calls.act;
    var call := [CallTo("main")];
    assert call[1..] == [];
    assert Resolves(p, 0, "main", 1, 0);
    assert ValidActivation(p, main);
    assert ValidCalls(p, 0, call, act.visits.calls);
    assert ValidActivation(p, act);
    SameActivations(p, act);
    assert IsLast(p, 0, 0, 0) && IsLast(p, 1, 0, 0);
    assert SingleExit(p, main);
  }

  lemma {:induction false} FinishIsNotTracked()
    ensures !Tracked(Again(), false, FinishExecution())
  {
    var p, act := Again(), FinishExecution();
    assert InstrsOf(p, 0, 0, 0) == [CallTo("main")];
    assert !Expected(p, false, 0, 1, 1, 0);
    assert !TrackedCalls(p, false, 0, [CallTo("main")], act.visits.calls);
  }

  /** It leaves every function as it should, and it is refused on every tables loaded for the program. */
  lemma {:induction false} CallToDeclaredMainIsRefused(data: MonitorData, trace: bool)
    requires LoadedFrom(Again(), data)
    ensures SourceProgram(Again())
    ensures IsExecution(Again(), FinishExecution()) && SingleExit(Again(), FinishExecution())
    ensures !Accepts(data, trace, Emits(Instrumented(Again()), FinishExecution()))
  {
    AgainIsSource();
    FinishIsAnExecution();
    FinishIsNotTracked();
    LinkedExecutionIsAccepted(Again(), data, trace, FinishExecution());
  }
}
