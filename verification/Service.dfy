/**
 The protocol of signals and answers when the client sends what it has to send and nothing else: every
 interleaving in which the monitor accepts the signals comes to an end, with every send returned.
 */
module Service {
  import opened MonitorTables
  import opened MonitorSpec
  import opened Execution
  import opened Linked
  import opened Session
  import opened Lives
  import WholeProgram
  import Protocol = Handshake

  type Net = Protocol.Net

  /** The action is possible, and if it is a write it is that of the next signal. */
  predicate CanAct(data: MonitorData, trace: bool, finis: nat, sigs: seq<Signal>, s: Net, a: Protocol.Action) {
    && Protocol.Act(data, trace, finis, s, a).Some?
    && (a.ClientWrites? ==> |s.sent| < |sigs| && a.sig == sigs[|s.sent|])
  }

  /** All the actions are possible, one after the other. */
  predicate CanActAll(data: MonitorData, trace: bool, finis: nat, sigs: seq<Signal>, s: Net,
                      actions: seq<Protocol.Action>)
    decreases |actions|
  {
    actions != [] ==>
      && CanAct(data, trace, finis, sigs, s, actions[0])
      && CanActAll(data, trace, finis, sigs, Protocol.Act(data, trace, finis, s, actions[0]).value, actions[1..])
  }

  /** No action is possible. */
  ghost predicate AtRest(data: MonitorData, trace: bool, finis: nat, sigs: seq<Signal>, s: Net) {
    forall a :: !CanAct(data, trace, finis, sigs, s, a)
  }

  /** The monitor ends well if it reads rest, all of it. */
  predicate EndsWell(data: MonitorData, trace: bool, finis: nat, m: Protocol.Monitor, rest: seq<Signal>) {
    match m
    case Preloading(_) => Runs(data, trace, 1 + finis, rest) == (Exits(0), [])
    case Listening(st, _, left) => RunThenRuns(data, trace, st, left, rest)
    case Answering(next) => (next.Listening? || next.Finished?) && EndsWell(data, trace, finis, next, rest)
    case Finished => rest == []
    case _ => false
  }

  predicate RunThenRuns(data: MonitorData, trace: bool, st: State, left: nat, rest: seq<Signal>) {
    var v := Run(data, trace, st, rest);
    v.Ended? && v.error == 0 && Runs(data, trace, left, v.rest) == (Exits(0), [])
  }

  /** What the monitor has not read yet, of what the client has to send. */
  function Unread(sigs: seq<Signal>, s: Net): seq<Signal>
    requires |s.pending| <= |s.sent| <= |sigs|
  {
    sigs[|s.sent| - |s.pending|..]
  }

  ghost predicate OnTrack(data: MonitorData, trace: bool, finis: nat, n: nat, sigs: seq<Signal>, s: Net) {
    && Protocol.Balanced(data, trace, n, s)
    && |s.pending| <= |s.sent| <= |sigs| && s.sent == sigs[..|s.sent|]
    && EndsWell(data, trace, finis, s.monitor, Unread(sigs, s))
  }

  /** The actions still to come: four for each signal, the preloads, and the start of the first run. */
  function Remaining(sigs: seq<Signal>, s: Net): int {
    4 * |sigs| - |s.sent| - (|s.sent| - |s.pending|) - s.accepted - s.completed
    + if s.monitor.Preloading? then s.monitor.left + 1 else 0
  }

  lemma {:induction false} ClientKeepsTrack(data: MonitorData, trace: bool, finis: nat, n: nat, sigs: seq<Signal>,
                                            s: Net, a: Protocol.Action)
    requires OnTrack(data, trace, finis, n, sigs, s) && CanAct(data, trace, finis, sigs, s, a) && !a.MonitorActs?
    ensures var t := Protocol.Act(data, trace, finis, s, a).value;
            OnTrack(data, trace, finis, n, sigs, t) && Remaining(sigs, t) == Remaining(sigs, s) - 1
  {
    Protocol.ClientKeepsBalance(data, trace, finis, n, s, a);
    var t := Protocol.Act(data, trace, finis, s, a).value;
    if a.ClientWrites? {
      assert sigs[..|s.sent| + 1] == sigs[..|s.sent|] + [sigs[|s.sent|]];
      assert Unread(sigs, t) == Unread(sigs, s);
    } else {
      StaysOnTrack(data, trace, finis, n, sigs, s, t);
    }
  }

  /** A signal read by a monitor that ends well leaves one that does. */
  lemma {:induction false} SignalEndsWell(data: MonitorData, trace: bool, finis: nat, m: Protocol.Monitor,
                                          rest: seq<Signal>)
    requires m.Listening? && rest != [] && EndsWell(data, trace, finis, m, rest)
    ensures EndsWell(data, trace, finis, Protocol.AfterSignal(data, trace, m, rest[0]), rest[1..])
  {
    if Step(data, trace, m.st, rest[0]).Stopped? && m.runsLeft > 0 {
      FirstOfRuns(data, trace, m.runsLeft, rest[1..]);
    }
  }

  lemma {:induction false} ReadKeepsTrack(data: MonitorData, trace: bool, finis: nat, n: nat, sigs: seq<Signal>, s: Net)
    requires OnTrack(data, trace, finis, n, sigs, s) && s.monitor.Listening? && s.pending != []
    ensures var t := Protocol.MonitorStep(data, trace, finis, s).value;
            OnTrack(data, trace, finis, n, sigs, t) && Remaining(sigs, t) == Remaining(sigs, s) - 1
  {
    var rest := Unread(sigs, s);
    assert s.pending[0] == s.sent[|s.sent| - |s.pending|] == rest[0];
    SignalEndsWell(data, trace, finis, s.monitor, rest);
    Protocol.ReadKeepsBalance(data, trace, finis, n, s);
    assert Unread(sigs, Protocol.MonitorStep(data, trace, finis, s).value) == rest[1..];
  }

  lemma {:induction false} PreloadKeepsTrack(data: MonitorData, trace: bool, finis: nat, n: nat, sigs: seq<Signal>,
                                             s: Net)
    requires OnTrack(data, trace, finis, n, sigs, s) && s.monitor.Preloading?
    ensures var t := Protocol.MonitorStep(data, trace, finis, s).value;
            OnTrack(data, trace, finis, n, sigs, t) && Remaining(sigs, t) == Remaining(sigs, s) - 1
  {
    Protocol.WriteKeepsBalance(data, trace, finis, n, s);
    var left := s.monitor.left;
    PreloadEndsWell(data, trace, finis, left, Unread(sigs, s));
    PreloadStep(data, trace, finis, sigs, s);
    StaysOnTrack(data, trace, finis, n, sigs, s, Protocol.MonitorStep(data, trace, finis, s).value);
  }

  lemma {:induction false} PreloadStep(data: MonitorData, trace: bool, finis: nat, sigs: seq<Signal>, s: Net)
    requires s.monitor.Preloading?
    ensures Protocol.MonitorStep(data, trace, finis, s).Some?
    ensures var t, left := Protocol.MonitorStep(data, trace, finis, s).value, s.monitor.left;
            && t.sent == s.sent && t.pending == s.pending && Remaining(sigs, t) == Remaining(sigs, s) - 1
            && t.monitor == if left > 0 then Protocol.Preloading(left - 1) else Protocol.Listening(INITIAL, [], finis)
  {
  }

  lemma {:induction false} StaysOnTrack(data: MonitorData, trace: bool, finis: nat, n: nat, sigs: seq<Signal>,
                                        s: Net, t: Net)
    requires OnTrack(data, trace, finis, n, sigs, s) && Protocol.Balanced(data, trace, n, t)
    requires t.sent == s.sent && t.pending == s.pending && EndsWell(data, trace, finis, t.monitor, Unread(sigs, s))
    ensures OnTrack(data, trace, finis, n, sigs, t)
  {
  }

  lemma {:induction false} PreloadEndsWell(data: MonitorData, trace: bool, finis: nat, left: nat, rest: seq<Signal>)
    requires EndsWell(data, trace, finis, Protocol.Preloading(left), rest)
    ensures EndsWell(data, trace, finis,
                     if left > 0 then Protocol.Preloading(left - 1) else Protocol.Listening(INITIAL, [], finis), rest)
  {
    FirstRun(data, trace, finis, rest);
  }

  lemma {:induction false} FirstRun(data: MonitorData, trace: bool, finis: nat, rest: seq<Signal>)
    ensures Runs(data, trace, 1 + finis, rest) == (Exits(0), []) ==> RunThenRuns(data, trace, INITIAL, finis, rest)
  {
    FirstOfRuns(data, trace, 1 + finis, rest);
  }

  lemma {:induction false} AnswerKeepsTrack(data: MonitorData, trace: bool, finis: nat, n: nat, sigs: seq<Signal>,
                                            s: Net)
    requires OnTrack(data, trace, finis, n, sigs, s) && s.monitor.Answering?
    ensures var t := Protocol.MonitorStep(data, trace, finis, s).value;
            OnTrack(data, trace, finis, n, sigs, t) && Remaining(sigs, t) == Remaining(sigs, s) - 1
  {
    Protocol.WriteKeepsBalance(data, trace, finis, n, s);
  }

  lemma {:induction false} ActionKeepsTrack(data: MonitorData, trace: bool, finis: nat, n: nat, sigs: seq<Signal>,
                                            s: Net, a: Protocol.Action)
    requires OnTrack(data, trace, finis, n, sigs, s) && CanAct(data, trace, finis, sigs, s, a)
    ensures var t := Protocol.Act(data, trace, finis, s, a).value;
            OnTrack(data, trace, finis, n, sigs, t) && Remaining(sigs, t) == Remaining(sigs, s) - 1
  {
    if !a.MonitorActs? {
      ClientKeepsTrack(data, trace, finis, n, sigs, s, a);
    } else if s.monitor.Listening? {
      ReadKeepsTrack(data, trace, finis, n, sigs, s);
    } else if s.monitor.Preloading? {
      PreloadKeepsTrack(data, trace, finis, n, sigs, s);
    } else {
      AnswerKeepsTrack(data, trace, finis, n, sigs, s);
    }
  }

  lemma {:induction false} ActionsKeepTrack(data: MonitorData, trace: bool, finis: nat, n: nat, sigs: seq<Signal>,
                                            s: Net, actions: seq<Protocol.Action>)
    requires OnTrack(data, trace, finis, n, sigs, s) && CanActAll(data, trace, finis, sigs, s, actions)
    ensures Protocol.Interleave(data, trace, finis, s, actions).Some?
    ensures var t := Protocol.Interleave(data, trace, finis, s, actions).value;
            OnTrack(data, trace, finis, n, sigs, t) && Remaining(sigs, t) == Remaining(sigs, s) - |actions|
    decreases |actions|
  {
    if actions != [] {
      ActionKeepsTrack(data, trace, finis, n, sigs, s, actions[0]);
      var next := Protocol.Act(data, trace, finis, s, actions[0]).value;
      ActionsKeepTrack(data, trace, finis, n, sigs, next, actions[1..]);
    }
  }

  /** Something can happen as long as something is left to do. */
  lemma {:induction false} NextAction(data: MonitorData, trace: bool, finis: nat, n: nat, sigs: seq<Signal>, s: Net)
    returns (a: Protocol.Action)
    requires OnTrack(data, trace, finis, n, sigs, s) && Remaining(sigs, s) > 0
    ensures CanAct(data, trace, finis, sigs, s, a)
  {
    if Protocol.MonitorStep(data, trace, finis, s).Some? {
      a := Protocol.MonitorActs;
    } else if s.waiting {
      a := Protocol.ClientReads;
    } else {
      a := Protocol.ClientWrites(sigs[|s.sent|]);
    }
  }

  lemma {:induction false} NothingRemains(data: MonitorData, trace: bool, finis: nat, n: nat, sigs: seq<Signal>, s: Net)
    requires OnTrack(data, trace, finis, n, sigs, s)
    ensures Remaining(sigs, s) >= 0
    ensures Remaining(sigs, s) == 0 ==>
              s.monitor == Protocol.Finished && s.sent == sigs && s.completed == |sigs| && !s.waiting
  {
    if Remaining(sigs, s) == 0 {
      assert |s.sent| == |sigs| && s.pending == [] && s.accepted == |sigs|;
      assert Unread(sigs, s) == [];
      assert s.sent == sigs[..|sigs|] == sigs;
    }
  }

  /** Nothing more can happen exactly when nothing is left to do. */
  lemma {:induction false} AtRestIsDone(data: MonitorData, trace: bool, finis: nat, n: nat, sigs: seq<Signal>, s: Net)
    requires OnTrack(data, trace, finis, n, sigs, s)
    ensures AtRest(data, trace, finis, sigs, s) <==> Remaining(sigs, s) == 0
  {
    NothingRemains(data, trace, finis, n, sigs, s);
    if Remaining(sigs, s) > 0 {
      var a := NextAction(data, trace, finis, n, sigs, s);
    } else if a :| CanAct(data, trace, finis, sigs, s, a) {
      ActionKeepsTrack(data, trace, finis, n, sigs, s, a);
      NothingRemains(data, trace, finis, n, sigs, Protocol.Act(data, trace, finis, s, a).value);
    }
  }

  /** When the monitor accepts the signals, run after run, every interleaving of a client that sends them
      is made of the same number of actions: it can go on until the monitor has finished and every send
      has returned, and it does not get stuck before. */
  lemma {:induction false} EveryInterleavingFinishes(data: MonitorData, trace: bool, finis: nat, n: nat,
                                                     sigs: seq<Signal>, actions: seq<Protocol.Action>)
    requires Runs(data, trace, 1 + finis, sigs) == (Exits(0), [])
    requires CanActAll(data, trace, finis, sigs, Protocol.Start(n), actions)
    ensures |actions| <= n + 1 + 4 * |sigs|
    ensures Protocol.Interleave(data, trace, finis, Protocol.Start(n), actions).Some?
    ensures var s := Protocol.Interleave(data, trace, finis, Protocol.Start(n), actions).value;
            && !Protocol.Stuck(s.monitor)
            && (AtRest(data, trace, finis, sigs, s) <==> |actions| == n + 1 + 4 * |sigs|)
            && (AtRest(data, trace, finis, sigs, s) ==>
                  s.monitor == Protocol.Finished && s.sent == sigs && s.completed == |sigs| && !s.waiting)
  {
    assert sigs[0..] == sigs;
    ActionsKeepTrack(data, trace, finis, n, sigs, Protocol.Start(n), actions);
    var s := Protocol.Interleave(data, trace, finis, Protocol.Start(n), actions).value;
    AtRestIsDone(data, trace, finis, n, sigs, s);
    NothingRemains(data, trace, finis, n, sigs, s);
  }

  /** All the actions are possible, nothing more is possible after them, and then the monitor has finished
      and every signal has been sent and its send has returned. */
  ghost predicate Served(data: MonitorData, trace: bool, finis: nat, n: nat, sigs: seq<Signal>,
                         actions: seq<Protocol.Action>) {
    var end := Protocol.Interleave(data, trace, finis, Protocol.Start(n), actions);
    && end.Some? && AtRest(data, trace, finis, sigs, end.value) && end.value.monitor == Protocol.Finished
    && end.value.sent == sigs && end.value.completed == |sigs| && !end.value.waiting
  }

  lemma {:induction false} AcceptedRunsAreServed(data: MonitorData, trace: bool, runs: nat, n: nat, sigs: seq<Signal>,
                                                 actions: seq<Protocol.Action>)
    requires runs > 0 && Runs(data, trace, runs, sigs) == (Exits(0), [])
    requires CanActAll(data, trace, runs - 1, sigs, Protocol.Start(n), actions)
    ensures |actions| <= n + 1 + 4 * |sigs|
    ensures |actions| == n + 1 + 4 * |sigs| <==> Served(data, trace, runs - 1, n, sigs, actions)
  {
    var finis: nat := runs - 1;
    assert 1 + finis == runs;
    EveryInterleavingFinishes(data, trace, finis, n, sigs, actions);
  }

  /** The program and its fini functions, on the tables of the final relocation: if each execution leaves
      its functions as it should and its calls go where the tables send them, every interleaving of the
      two processes can go on until the monitor has finished and every send has returned, which takes the
      same number of actions in each of them. */
  lemma {:induction false} CleanProgramIsServed(p: Program, data: MonitorData, trace: bool, n: nat, runs: nat,
                                                acts: seq<Activation>, actions: seq<Protocol.Action>)
    requires SourceProgram(p) && LoadedFrom(p, data) && AreExecutions(p, acts) && |acts| == runs > 0
    requires AllSingleExit(p, acts) && AllTracked(p, false, acts)
    requires CanActAll(data, trace, runs - 1, EmitsAll(Instrumented(p), acts), Protocol.Start(n), actions)
    ensures var sigs := EmitsAll(Instrumented(p), acts);
            && |actions| <= n + 1 + 4 * |sigs|
            && (|actions| == n + 1 + 4 * |sigs| <==> Served(data, trace, runs - 1, n, sigs, actions))
  {
    CleanRuns(p, data, trace, acts);
    AcceptedRunsAreServed(data, trace, runs, n, EmitsAll(Instrumented(p), acts), actions);
  }

  lemma {:induction false} CleanRuns(p: Program, data: MonitorData, trace: bool, acts: seq<Activation>)
    requires SourceProgram(p) && LoadedFrom(p, data) && AreExecutions(p, acts)
    requires AllSingleExit(p, acts) && AllTracked(p, false, acts)
    ensures Runs(data, trace, |acts|, EmitsAll(Instrumented(p), acts)) == (Exits(0), [])
  {
    WholeProgram.RestVerdict(p, trace, data, acts);
  }
}
