/**
 An init function that calls a library loaded after its own: the program is linked and leaves each of its
 functions as it should, and the monitor refuses it all the same.
 */
module CallAhead {
  import opened MonitorTables
  import opened MonitorSpec
  import opened Injector
  import opened Execution
  import opened EndToEnd
  import opened Acceptance
  import opened Linked

  /** start(), in the first binary, calls work(), which only the second one defines. */
  function Library(): Program {
    var start := Func("start", Init, false, [Block([CallTo("work")], Ret)]);
    var declared := Func("work", External, false, []);
    var work := Func("work", Internal, false, [Block([], Ret)]);
    [Unit([start, declared], Names(map["start" := 0, "work" := 1], {})), Unit([work], Names(map["work" := 0], {}))]
  }

  function StartExecution(): Activation {
    Activation(0, 0, Last(0, OneCall(Activation(1, 0, Last(0, NoCall)), NoCall)))
  }

  lemma {:induction false} LibraryIsSource()
    ensures SourceProgram(Library())
  {
    var p := Library();
    assert SourceUnit(p[0]) by {
      assert SourceBlock(p[0], p[0].functions[0].blocks, 0);
    }
    assert SourceUnit(p[1]) by {
      assert SourceBlock(p[1], p[1].functions[0].blocks, 0);
    }
  }

  lemma {:induction false} LibraryIsLinked()
    ensures SoundFlags(Library()) && DefinedOnce(Library())
  {
    var p := Library();
    forall m: nat, f: nat | HasFunc(p, m, f)
      ensures p[m].functions[f].flag.External? <==> (m, f) == (0, 1)
      ensures Defined(p, m, f) <==> (m, f) != (0, 1)
    {
      assert m == 0 || (m == 1 && f == 0);
    }
    forall k: nat, l: nat | k != 0 && Defined(p, k, l) ensures (k, l) == (1, 0) {
    }
  }

  lemma {:induction false} StartIsAnExecution()
    requires SourceProgram(Library())
    ensures IsExecution(Library(), StartExecution())
    ensures SingleExit(Library(), StartExecution()) && !CallsBack(StartExecution())
  {
    var p, act := Library(), StartExecution();
    var work := act.visits.calls.act;
    var call := [CallTo("work")];
    assert call[1..] == [];
    assert Resolves(p, 0, "work", 1, 0);
    assert ValidActivation(p, work);
    assert ValidCalls(p, 0, call, act.visits.calls);
    assert ValidActivation(p, act);
    SameActivations(p, act);
    assert IsLast(p, 0, 0, 0) && IsLast(p, 1, 0, 0);
    assert SingleExit(p, work);
  }

  /** Whatever tables the loading phase has made of the first binary, or of both. */
  lemma {:induction false} CallAheadIsRefused(data: MonitorData, trace: bool)
    requires StagedFrom(Library(), data) && WellFormed(data) && data != []
    ensures SourceProgram(Library())
    ensures IsExecution(Library(), StartExecution()) && SingleExit(Library(), StartExecution())
    ensures !Accepts(data, trace, Emits(Instrumented(Library()), StartExecution()))
  {
    LibraryIsSource();
    LibraryIsLinked();
    StartIsAnExecution();
    SameActivations(Library(), StartExecution());
    SoundlyTracked(Library(), true, StartExecution());
    InitExecutionIsAccepted(Library(), data, trace, StartExecution());
  }
}
