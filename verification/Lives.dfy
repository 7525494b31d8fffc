/**
 Executions one after the other: what they send, and what as many runs of the monitor make of it.
 */
module Lives {
  import opened Wrappers
  import opened MonitorTables
  import opened MonitorSpec
  import opened Execution
  import opened EndToEnd
  import opened Acceptance
  import opened Linked
  import opened Session

  function EmitsAll(q: Program, acts: seq<Activation>): seq<Signal> {
    if acts == [] then [] else Emits(q, acts[0]) + EmitsAll(q, acts[1..])
  }

  ghost predicate AreExecutions(p: Program, acts: seq<Activation>)
    requires SourceProgram(p)
  {
    forall k | 0 <= k < |acts| :: IsExecution(p, acts[k])
  }

  predicate AllSingleExit(p: Program, acts: seq<Activation>) {
    forall k | 0 <= k < |acts| :: SingleExit(p, acts[k])
  }

  ghost predicate AllTracked(p: Program, loading: bool, acts: seq<Activation>) {
    forall k | 0 <= k < |acts| :: Tracked(p, loading, acts[k])
  }

  // ----- Runs over one execution after the other

  /** What remains in the pipe begins with the next run, if there is one. */
  predicate Fresh(signals: seq<Signal>) {
    signals != [] ==> signals[0].event == Enter
  }

  /** Either the run has failed, or what it has left will make the next one fail, if there is one. */
  predicate Lost(status: Session.Status, unread: seq<Signal>) {
    status == Exits(0) ==> !Fresh(unread)
  }

  /** Runs that have read all but rest with status 0, when they are good ones, and are lost otherwise. */
  predicate RightRuns(good: bool, result: (Session.Status, seq<Signal>), rest: seq<Signal>) {
    if good then result == (Exits(0), rest) else Lost(result.0, result.1)
  }

  lemma {:induction false} LostStaysLost(data: MonitorData, trace: bool, nb: nat, signals: seq<Signal>)
    requires !Fresh(signals)
    ensures var (status, unread) := Runs(data, trace, nb, signals); Lost(status, unread)
  {
    if nb > 0 {
      assert OneRun(data, trace, signals).0 != Exits(0);
    }
  }

  lemma {:induction false} NothingBefore(rest: seq<Signal>)
    ensures [] + rest == rest
  {
  }

  /** The execution can start on the tables there are. */
  ghost predicate CanStart(p: Program, data: MonitorData, act: Activation)
    requires SourceProgram(p)
  {
    && ValidActivation(Instrumented(p), act) && HasFunction(data, act.mod, act.fn)
    && IsEntrypoint(data[act.mod].functions[act.fn])
  }

  lemma {:induction false} OneExecution(p: Program, data: MonitorData, trace: bool, act: Activation, rest: seq<Signal>)
    requires SourceProgram(p) && TablesMatch(p, data) && Fresh(rest) && CanStart(p, data, act)
    ensures RightRuns(Good(p, data, act), OneRun(data, trace, Emits(Instrumented(p), act) + rest), rest)
  {
    ExecutionVerdict(p, data, trace, act);
    RunFromVerdict(data, trace, Good(p, data, act), Emits(Instrumented(p), act), rest);
  }

  lemma {:induction false} RunFromVerdict(data: MonitorData, trace: bool, good: bool, sent: seq<Signal>,
                                          rest: seq<Signal>)
    requires Fresh(rest)
    requires var v := Run(data, trace, INITIAL, sent); if good then v == Ended(0, []) else Astray(None, v)
    ensures RightRuns(good, OneRun(data, trace, sent + rest), rest)
  {
    RunAppend(data, trace, INITIAL, sent, rest);
    NothingBefore(rest);
  }

  predicate AllGood(p: Program, data: MonitorData, acts: seq<Activation>) {
    forall k | 0 <= k < |acts| :: Good(p, data, acts[k])
  }

  ghost predicate AllCanStart(p: Program, data: MonitorData, acts: seq<Activation>)
    requires SourceProgram(p)
  {
    acts != [] ==> CanStart(p, data, acts[0]) && AllCanStart(p, data, acts[1..])
  }

  lemma {:induction false} EachCanStart(p: Program, data: MonitorData, acts: seq<Activation>)
    requires SourceProgram(p) && forall k | 0 <= k < |acts| :: CanStart(p, data, acts[k])
    ensures AllCanStart(p, data, acts)
    decreases |acts|
  {
    if acts != [] {
      EachCanStart(p, data, acts[1..]);
    }
  }

  lemma {:induction false} StartsWithEnter(p: Program, acts: seq<Activation>, rest: seq<Signal>)
    requires SourceProgram(p) && Fresh(rest)
    requires acts != [] ==> ValidActivation(Instrumented(p), acts[0])
    ensures Fresh(EmitsAll(Instrumented(p), acts) + rest)
  {
    if acts != [] {
      SameActivations(p, acts[0]);
      EmitsTrace(p, Instrumented(p), acts[0]);
    } else {
      NothingBefore(rest);
    }
  }

  /** As many runs as there are executions end with status 0 and read them all if and only if the monitor
      can follow each of them. */
  lemma {:induction false} RunsOverExecutions(p: Program, data: MonitorData, trace: bool, acts: seq<Activation>,
                                              rest: seq<Signal>)
    requires SourceProgram(p) && TablesMatch(p, data) && Fresh(rest) && AllCanStart(p, data, acts)
    ensures RightRuns(AllGood(p, data, acts), Runs(data, trace, |acts|, EmitsAll(Instrumented(p), acts) + rest), rest)
    decreases |acts|
  {
    if acts == [] {
      NothingBefore(rest);
    } else {
      StartsWithEnter(p, acts[1..], rest);
      OneExecution(p, data, trace, acts[0], EmitsAll(Instrumented(p), acts[1..]) + rest);
      RunsOverExecutions(p, data, trace, acts[1..], rest);
      RunsTogether(p, Instrumented(p), data, trace, acts, rest);
    }
  }

  lemma {:induction false} RunsTogether(p: Program, q: Program, data: MonitorData, trace: bool,
                                        acts: seq<Activation>, rest: seq<Signal>)
    requires acts != []
    requires var more := EmitsAll(q, acts[1..]) + rest;
             && RightRuns(Good(p, data, acts[0]), OneRun(data, trace, Emits(q, acts[0]) + more), more)
             && RightRuns(AllGood(p, data, acts[1..]), Runs(data, trace, |acts[1..]|, more), rest)
    ensures RightRuns(AllGood(p, data, acts), Runs(data, trace, |acts|, EmitsAll(q, acts) + rest), rest)
  {
    var sent, more := Emits(q, acts[0]), EmitsAll(q, acts[1..]) + rest;
    OneMoreRun(data, trace, |acts[1..]|, sent, more, rest, Good(p, data, acts[0]), AllGood(p, data, acts[1..]));
    FirstSent(q, acts, rest);
    OneMoreGood(p, data, acts);
    assert |acts[1..]| + 1 == |acts|;
  }

  lemma {:induction false} OneMoreRun(data: MonitorData, trace: bool, nb: nat, sent: seq<Signal>, more: seq<Signal>,
                                      rest: seq<Signal>, good: bool, moreGood: bool)
    requires RightRuns(good, OneRun(data, trace, sent + more), more)
    requires RightRuns(moreGood, Runs(data, trace, nb, more), rest)
    ensures RightRuns(good && moreGood, Runs(data, trace, nb + 1, sent + more), rest)
  {
    if !good {
      LostAtFirst(data, trace, nb + 1, sent + more);
    }
  }

  lemma {:induction false} FirstSent(q: Program, acts: seq<Activation>, rest: seq<Signal>)
    requires acts != []
    ensures EmitsAll(q, acts) + rest == Emits(q, acts[0]) + (EmitsAll(q, acts[1..]) + rest)
  {
  }

  lemma {:induction false} LostAtFirst(data: MonitorData, trace: bool, nb: nat, signals: seq<Signal>)
    requires nb > 0 && var (status, unread) := OneRun(data, trace, signals); Lost(status, unread)
    ensures var (status, unread) := Runs(data, trace, nb, signals); Lost(status, unread)
  {
    var (status, unread) := OneRun(data, trace, signals);
    if status == Exits(0) {
      LostStaysLost(data, trace, nb - 1, unread);
    }
  }

  lemma {:induction false} OneMoreGood(p: Program, data: MonitorData, acts: seq<Activation>)
    requires acts != []
    ensures AllGood(p, data, acts) <==> Good(p, data, acts[0]) && AllGood(p, data, acts[1..])
  {
    if Good(p, data, acts[0]) && AllGood(p, data, acts[1..]) {
      forall k | 0 <= k < |acts| ensures Good(p, data, acts[k]) {
        assert k > 0 ==> acts[k] == acts[1..][k - 1];
      }
    }
    if AllGood(p, data, acts) {
      assert forall k | 0 <= k < |acts[1..]| :: acts[1..][k] == acts[k + 1];
    }
  }

  lemma {:induction false} NothingAfter(sent: seq<Signal>)
    ensures sent + [] == sent
  {
  }

  /** On the tables of a program, while they are being loaded and afterwards, the executions that can be
      followed are those that leave each of their functions as they should and whose calls go where the
      tables send them. */
  lemma {:induction false} ExecutionsOnTables(p: Program, loading: bool, data: MonitorData, acts: seq<Activation>)
    requires SourceProgram(p) && TablesOf(p, loading, data) && WellFormed(data) && AreExecutions(p, acts)
    requires forall k | 0 <= k < |acts| :: acts[k].mod < |data|
    ensures TablesMatch(p, data) && AllCanStart(p, data, acts)
    ensures AllGood(p, data, acts) <==> AllSingleExit(p, acts) && AllTracked(p, loading, acts)
  {
    DescribedTablesMatch(p, data);
    forall k | 0 <= k < |acts|
      ensures CanStart(p, data, acts[k])
      ensures Good(p, data, acts[k]) <==> SingleExit(p, acts[k]) && Tracked(p, loading, acts[k])
    {
      assert IsExecution(p, acts[k]);
      SameActivations(p, acts[k]);
      LoadedFlag(p, data, acts[k].mod, acts[k].fn);
      TrackedFollows(p, loading, data, acts[k]);
    }
    EachCanStart(p, data, acts);
  }

  /** What as many runs as there are executions come to on such tables. */
  lemma {:induction false} ExecutionsVerdict(p: Program, loading: bool, data: MonitorData, trace: bool,
                                             acts: seq<Activation>, rest: seq<Signal>)
    requires SourceProgram(p) && TablesOf(p, loading, data) && WellFormed(data) && AreExecutions(p, acts)
    requires Fresh(rest) && forall k | 0 <= k < |acts| :: acts[k].mod < |data|
    ensures RightRuns(AllSingleExit(p, acts) && AllTracked(p, loading, acts),
                      Runs(data, trace, |acts|, EmitsAll(Instrumented(p), acts) + rest), rest)
  {
    ExecutionsOnTables(p, loading, data, acts);
    RunsOverExecutions(p, data, trace, acts, rest);
  }

  lemma {:induction false} ExecutionsAreFresh(p: Program, acts: seq<Activation>, rest: seq<Signal>)
    requires SourceProgram(p) && AreExecutions(p, acts) && Fresh(rest)
    ensures Fresh(EmitsAll(Instrumented(p), acts) + rest)
  {
    if acts != [] {
      assert IsExecution(p, acts[0]);
    }
    StartsWithEnter(p, acts, rest);
  }
}
