/**
 A whole session of the monitor: the loop of monitor_load (monitor/src/monitor_load.c) and the main
 process of monitor/src/main.c, from the first module to the last fini.
 */
module Session {
  import opened Wrappers
  import opened MonitorTables
  import opened MonitorSpec
  import opened TraceLanguage
  import opened Relocation

  /** What monitor_load_module returns next: a module with the numbers of its init and fini functions,
      the end of the loading phase, or a failure. */
  datatype Load = Module(md: ModuleData, inits: nat, finis: nat) | Terminated | Failed

  /** Stuck: the monitor waits for a message that never comes.  Crash: it read through a missing row. */
  datatype Status = Exits(code: int) | Stuck | Crash

  datatype Entry = Loaded(inits: nat, finis: nat) | LoadingEnds | Ran(data: MonitorData, trace: seq<Signal>)

  // ----- What a session log looks like

  function Count(log: seq<Entry>): nat {
    if log == [] then 0 else (if log[0].Ran? then 1 else 0) + Count(log[1..])
  }

  /** How many runs are still due after log, when owed were due before it: each module must be followed
      by as many runs as it has inits, and only then by the next module. */
  function OwedAfter(log: seq<Entry>, owed: nat): Option<nat> {
    if log == [] then Some(owed)
    else
      match log[0]
      case Loaded(inits, _) => if owed == 0 then OwedAfter(log[1..], inits) else None
      case Ran(_, _) => if owed > 0 then OwedAfter(log[1..], owed - 1) else None
      case LoadingEnds => None
  }

  predicate IsLoadingLog(log: seq<Entry>) {
    OwedAfter(log, 0) == Some(0)
  }

  function Inits(log: seq<Entry>): nat {
    if log == [] then 0 else (if log[0].Loaded? then log[0].inits else 0) + Inits(log[1..])
  }

  function Finis(log: seq<Entry>): nat {
    if log == [] then 0 else (if log[0].Loaded? then log[0].finis else 0) + Finis(log[1..])
  }

  predicate OnlyRuns(log: seq<Entry>) {
    forall k | 0 <= k < |log| :: log[k].Ran?
  }

  predicate On(log: seq<Entry>, data: MonitorData) {
    forall k | 0 <= k < |log| && log[k].Ran? :: log[k].data == data
  }

  predicate AreRuns(log: seq<Entry>, n: nat, data: MonitorData) {
    |log| == n && OnlyRuns(log) && On(log, data)
  }

  lemma {:induction false} MoreRuns(a: seq<Entry>, n: nat, b: seq<Entry>, m: nat, data: MonitorData)
    requires AreRuns(a, n, data) && AreRuns(b, m, data)
    ensures AreRuns(a + b, n + m, data)
  {
  }

  /** The log of a session that ends with status 0: the loading phase, one run for the program itself,
      one run per fini; the runs after the loading phase use the tables of the final relocation. */
  ghost predicate IsSessionLog(log: seq<Entry>, data: MonitorData) {
    exists n: nat :: IsSessionFrom(log, data, n)
  }

  /** The loading phase ends at position n. */
  predicate IsSessionFrom(log: seq<Entry>, data: MonitorData, n: nat) {
    && n < |log| && log[n] == LoadingEnds
    && IsLoadingLog(log[..n])
    && OnlyRuns(log[n + 1..]) && On(log[n + 1..], data)
    && |log[n + 1..]| == 1 + Finis(log[..n])
  }

  function SumInits(counters: seq<(nat, nat)>): nat {
    if counters == [] then 0 else counters[0].0 + SumInits(counters[1..])
  }

  function SumFinis(counters: seq<(nat, nat)>): nat {
    if counters == [] then 0 else counters[0].1 + SumFinis(counters[1..])
  }

  lemma {:induction false} SumsSnoc(counters: seq<(nat, nat)>, c: (nat, nat))
    ensures SumInits(counters + [c]) == SumInits(counters) + c.0
    ensures SumFinis(counters + [c]) == SumFinis(counters) + c.1
    decreases |counters|
  {
    if counters == [] {
      assert [c][1..] == [];
    } else {
      assert (counters + [c])[1..] == counters[1..] + [c];
      SumsSnoc(counters[1..], c);
    }
  }

  /** Every run of the log was accepted, on the tables there were. */
  predicate RunsAccepted(log: seq<Entry>, trace: bool) {
    forall k | 0 <= k < |log| && log[k].Ran? :: Accepts(log[k].data, trace, log[k].trace)
  }

  /** The run was made on tables that a run can be made on, and its trace is in their language. */
  ghost predicate HasDerivation(e: Entry) {
    e.Ran? ==> WellFormed(e.data) && Derivable(e.data, e.trace)
  }

  ghost predicate RunsDerivable(log: seq<Entry>) {
    forall k | 0 <= k < |log| :: HasDerivation(log[k])
  }

  lemma {:induction false} NoMoreRuns(log: seq<Entry>, e: Entry, trace: bool)
    requires !e.Ran?
    ensures RunsAccepted(log, trace) ==> RunsAccepted(log + [e], trace)
    ensures RunsDerivable(log) ==> RunsDerivable(log + [e])
  {
    if RunsDerivable(log) {
      assert forall k | 0 <= k < |log| :: HasDerivation(log[k]);
    }
  }

  /** The signals of the runs, in order. */
  function Heard(log: seq<Entry>): seq<Signal> {
    if log == [] then [] else (if log[0].Ran? then log[0].trace else []) + Heard(log[1..])
  }

  lemma {:induction false} LogAppend(a: seq<Entry>, b: seq<Entry>)
    ensures Heard(a + b) == Heard(a) + Heard(b)
    ensures Count(a + b) == Count(a) + Count(b)
    ensures Finis(a + b) == Finis(a) + Finis(b)
    ensures Inits(a + b) == Inits(a) + Inits(b)
    decreases |a|
  {
    if a == [] {
      assert a + b == b;
    } else {
      assert (a + b)[1..] == a[1..] + b;
      LogAppend(a[1..], b);
    }
  }

  lemma {:induction false} RunsCount(log: seq<Entry>)
    requires OnlyRuns(log)
    ensures Count(log) == |log| && Inits(log) == 0 && Finis(log) == 0
    decreases |log|
  {
    if log != [] {
      RunsCount(log[1..]);
    }
  }

  lemma {:induction false} OwedAppend(a: seq<Entry>, b: seq<Entry>, owed: nat)
    requires OwedAfter(a, owed).Some?
    ensures OwedAfter(a + b, owed) == OwedAfter(b, OwedAfter(a, owed).value)
    decreases |a|
  {
    if a == [] {
      assert a + b == b;
    } else {
      assert (a + b)[1..] == a[1..] + b;
      OwedAppend(a[1..], b, if a[0].Loaded? then a[0].inits else owed - 1);
    }
  }

  lemma {:induction false} RunsPay(runs: seq<Entry>)
    requires OnlyRuns(runs)
    ensures OwedAfter(runs, |runs|) == Some(0)
    decreases |runs|
  {
    if runs != [] {
      RunsPay(runs[1..]);
    }
  }

  /** Every run that is due takes place: the loading log contains exactly one run per init. */
  lemma {:induction false} LoadingLogCount(log: seq<Entry>, owed: nat)
    requires OwedAfter(log, owed).Some?
    ensures Count(log) + OwedAfter(log, owed).value == Inits(log) + owed
    decreases |log|
  {
    if log != [] {
      LoadingLogCount(log[1..], if log[0].Loaded? then log[0].inits else owed - 1);
    }
  }

  /** The log is that of a loading phase and matches the counters. */
  predicate Matches(log: seq<Entry>, counters: seq<(nat, nat)>) {
    IsLoadingLog(log) && Inits(log) == SumInits(counters) && Finis(log) == SumFinis(counters)
  }

  lemma {:induction false} OneEntry(e: Entry)
    ensures Count([e]) == if e.Ran? then 1 else 0
    ensures Heard([e]) == if e.Ran? then e.trace else []
    ensures Inits([e]) == if e.Loaded? then e.inits else 0
    ensures Finis([e]) == if e.Loaded? then e.finis else 0
  {
    assert [e][1..] == [];
  }

  lemma {:induction false} ModuleLoaded(log: seq<Entry>, counters: seq<(nat, nat)>, inits: nat, finis: nat,
                                        runs: seq<Entry>)
    requires Matches(log, counters) && OnlyRuns(runs) && |runs| == inits
    ensures Matches(log + [Loaded(inits, finis)] + runs, counters + [(inits, finis)])
  {
    var entry := Loaded(inits, finis);
    OwedAppend(log, [entry], 0);
    assert OwedAfter([entry], 0) == Some(inits) by { assert [entry][1..] == []; }
    OwedAppend(log + [entry], runs, 0);
    RunsPay(runs);
    LogAppend(log + [entry], runs);
    LogAppend(log, [entry]);
    OneEntry(entry);
    RunsCount(runs);
    SumsSnoc(counters, (inits, finis));
  }

  lemma {:induction false} SessionSplits(loading: seq<Entry>, runs: seq<Entry>)
    ensures var log := loading + [LoadingEnds] + runs;
            log[..|loading|] == loading && log[|loading|] == LoadingEnds && log[|loading| + 1..] == runs
  {
  }

  lemma {:induction false} SessionOver(loading: seq<Entry>, counters: seq<(nat, nat)>, runs: seq<Entry>,
                                       data: MonitorData)
    requires Matches(loading, counters)
    requires OnlyRuns(runs) && On(runs, data) && |runs| == 1 + SumFinis(counters)
    ensures var log := loading + [LoadingEnds] + runs;
            IsSessionLog(log, data) && Inits(log) == SumInits(counters) && Finis(log) == SumFinis(counters)
  {
    var log := loading + [LoadingEnds] + runs;
    assert IsSessionFrom(log, data, |loading|) by {
      SessionSplits(loading, runs);
    }
    LogAppend(loading + [LoadingEnds], runs);
    LogAppend(loading, [LoadingEnds]);
    OneEntry(LoadingEnds);
    RunsCount(runs);
  }

  /** A session that ends with status 0 has consumed one trace per init, one for the program, and one
      per fini. */
  lemma {:induction false} SessionCount(log: seq<Entry>, data: MonitorData)
    requires IsSessionLog(log, data)
    ensures Count(log) == Inits(log) + 1 + Finis(log)
  {
    var n: nat :| IsSessionFrom(log, data, n);
    var loading, runs := log[..n], log[n + 1..];
    assert log == loading + [LoadingEnds] + runs;
    LoadingLogCount(loading, 0);
    LogAppend(loading + [LoadingEnds], runs);
    LogAppend(loading, [LoadingEnds]);
    RunsCount(runs);
    OneEntry(LoadingEnds);
  }

  /** A run that ends leaves the rest unread, and would have ended the same way without it. */
  lemma {:induction false} RunReadsPrefix(data: MonitorData, trace: bool, st: State, sigs: seq<Signal>)
    returns (heard: seq<Signal>)
    requires Run(data, trace, st, sigs).Ended?
    ensures var v := Run(data, trace, st, sigs);
            sigs == heard + v.rest && Run(data, trace, st, heard) == Ended(v.error, [])
    decreases |sigs|
  {
    match Step(data, trace, st, sigs[0])
    case Running(next) =>
      var more := RunReadsPrefix(data, trace, next, sigs[1..]);
      heard := [sigs[0]] + more;
      assert heard[1..] == more;
    case Stopped(error) =>
      heard := [sigs[0]];
      assert heard[1..] == [];
  }

  // ----- How it ends

  function OneRun(data: MonitorData, trace: bool, signals: seq<Signal>): (Status, seq<Signal>) {
    match Run(data, trace, INITIAL, signals)
    case Waiting(_) => (Stuck, [])
    case Faulted => (Crash, signals)
    case Ended(error, rest) => (Exits(error), rest)
  }

  /** Up to nb runs, until one of them does not end with 0. */
  function Runs(data: MonitorData, trace: bool, nb: nat, signals: seq<Signal>): (Status, seq<Signal>) {
    if nb == 0 then (Exits(0), signals)
    else
      var (status, rest) := OneRun(data, trace, signals);
      if status == Exits(0) then Runs(data, trace, nb - 1, rest) else (status, rest)
  }

  lemma {:induction false} FirstOfRuns(data: MonitorData, trace: bool, nb: nat, signals: seq<Signal>)
    requires nb > 0
    ensures var (status, rest) := OneRun(data, trace, signals);
            Runs(data, trace, nb, signals) ==
            if status == Exits(0) then Runs(data, trace, nb - 1, rest) else (status, rest)
  {
  }

  function Joined(traces: seq<seq<Signal>>): seq<Signal> {
    if traces == [] then [] else traces[0] + Joined(traces[1..])
  }

  predicate AllAccepted(data: MonitorData, trace: bool, traces: seq<seq<Signal>>) {
    forall k | 0 <= k < |traces| :: Accepts(data, trace, traces[k])
  }

  /** The runs read accepted traces one after the other.  They end well after nb of them, and otherwise
      as the run over the signals left then does. */
  lemma {:induction false} RunsAre(data: MonitorData, trace: bool, nb: nat, signals: seq<Signal>)
    returns (traces: seq<seq<Signal>>, left: seq<Signal>)
    ensures AllAccepted(data, trace, traces) && signals == Joined(traces) + left
    ensures var (status, unread) := Runs(data, trace, nb, signals);
            if status == Exits(0) then |traces| == nb && unread == left
            else
              && |traces| < nb
              && match Run(data, trace, INITIAL, left)
                 case Waiting(_) => status == Stuck && unread == []
                 case Faulted => status == Crash
                 case Ended(error, rest) => error != 0 && status == Exits(error) && unread == rest
    decreases nb
  {
    traces, left := [], signals;
    if nb > 0 && OneRun(data, trace, signals).0 == Exits(0) {
      var first := RunReadsPrefix(data, trace, INITIAL, signals);
      var more;
      more, left := RunsAre(data, trace, nb - 1, Run(data, trace, INITIAL, signals).rest);
      traces := [first] + more;
      assert traces[1..] == more;
      assert forall k | 0 < k < |traces| :: traces[k] == more[k - 1];
    }
  }

  datatype Phase = Phase(status: Status, modules: seq<ModuleData>, counters: seq<(nat, nat)>, signals: seq<Signal>)

  /** The modules sent before the loading phase ends, and their counters. */
  function Sent(loads: seq<Load>): seq<ModuleData> {
    if loads == [] || !loads[0].Module? then [] else [loads[0].md] + Sent(loads[1..])
  }

  function SentCounters(loads: seq<Load>): seq<(nat, nat)> {
    if loads == [] || !loads[0].Module? then [] else [(loads[0].inits, loads[0].finis)] + SentCounters(loads[1..])
  }

  predicate Shaped(loads: seq<Load>) {
    forall k | 0 <= k < |loads| && loads[k].Module? :: |loads[k].md.relocations| == |loads[k].md.functions|
  }

  /** The loading phase, until it is over or something in it does not end with 0. */
  function LoadPhase(trace: bool, loads: seq<Load>, modules: seq<ModuleData>, counters: seq<(nat, nat)>,
                     signals: seq<Signal>): Phase
    requires Shaped(loads) && RelocationsShaped(modules)
    decreases |loads|
  {
    if loads == [] then Phase(Stuck, modules, counters, signals)
    else
      match loads[0]
      case Terminated => Phase(Exits(0), modules, counters, signals)
      case Failed => Phase(Exits(-1), modules, counters, signals)
      case Module(md, inits, finis) =>
        var more := WithNext(modules, md);
        var (status, rest) := Runs(more, trace, inits, signals);
        if status == Exits(0) then LoadPhase(trace, loads[1..], more, counters + [(inits, finis)], rest)
        else Phase(status, more, counters + [(inits, finis)], rest)
  }

  /** A loading phase that succeeds has met the end of the loading, and its modules are those sent,
      in order, but for their relocations. */
  lemma {:induction false} LoadPhaseKeepsModules(trace: bool, loads: seq<Load>, modules: seq<ModuleData>,
                                                 counters: seq<(nat, nat)>, signals: seq<Signal>)
    requires Shaped(loads) && RelocationsShaped(modules)
    requires LoadPhase(trace, loads, modules, counters, signals).status == Exits(0)
    ensures |Sent(loads)| < |loads| && loads[|Sent(loads)|].Terminated?
    ensures var phase := LoadPhase(trace, loads, modules, counters, signals);
            SameButRelocations(modules + Sent(loads), phase.modules) && phase.counters == counters + SentCounters(loads)
    decreases |loads|
  {
    match loads[0]
    case Terminated =>
    case Module(md, inits, finis) =>
      var more := WithNext(modules, md);
      var rest := Runs(more, trace, inits, signals).1;
      LoadPhaseKeepsModules(trace, loads[1..], more, counters + [(inits, finis)], rest);
      OneMoreSent(modules, md, Sent(loads[1..]),
                  LoadPhase(trace, loads[1..], more, counters + [(inits, finis)], rest).modules);
      OneMoreCounter(counters, (inits, finis), SentCounters(loads[1..]));
  }

  lemma {:induction false} OneMoreCounter(counters: seq<(nat, nat)>, c: (nat, nat), more: seq<(nat, nat)>)
    ensures counters + [c] + more == counters + ([c] + more)
  {
  }

  lemma {:induction false} OneMoreSent(modules: seq<ModuleData>, md: ModuleData, sent: seq<ModuleData>,
                                       final: seq<ModuleData>)
    requires RelocationsShaped(modules) && |md.relocations| == |md.functions|
    requires SameButRelocations(WithNext(modules, md) + sent, final)
    ensures SameButRelocations(modules + ([md] + sent), final)
  {
    NextKeepsModules(modules, md);
    assert modules + ([md] + sent) == modules + [md] + sent;
    SameBefore(modules + [md], WithNext(modules, md), sent);
    SameIsTransitive(modules + [md] + sent, WithNext(modules, md) + sent, final);
  }

  lemma {:induction false} SameBefore(a: seq<ModuleData>, b: seq<ModuleData>, more: seq<ModuleData>)
    requires SameButRelocations(a, b)
    ensures SameButRelocations(a + more, b + more)
  {
  }

  // ----- Modules that keep the tables safe to run on

  /** The modules to come are as the loader hands them over, at most 65536 with those there already, and
      the first of all has a function. */
  ghost predicate Loadable(modules: seq<ModuleData>, loads: seq<Load>) {
    && SafeToRunOn(modules)
    && |modules| + |Sent(loads)| <= TWO16
    && (forall k | 0 <= k < |Sent(loads)| :: AsLoaded(Sent(loads)[k]))
    && (modules == [] && Sent(loads) != [] ==> |Sent(loads)[0].functions| > 0)
  }

  lemma {:induction false} NextIsLoadable(modules: seq<ModuleData>, loads: seq<Load>)
    requires Loadable(modules, loads) && loads != [] && loads[0].Module?
    ensures AsLoaded(loads[0].md) && Loadable(WithNext(modules, loads[0].md), loads[1..])
  {
    var sent := Sent(loads);
    assert AsLoaded(sent[0]);
    NextModuleIsSafe(modules, loads[0].md);
    forall k | 0 <= k < |Sent(loads[1..])| ensures AsLoaded(Sent(loads[1..])[k]) {
      assert AsLoaded(sent[k + 1]);
    }
  }

  /** An external function without a definition is only fatal once loading is over. */
  function LoadStatus(phase: Phase): Status {
    if phase.status == Exits(0) && SomeMissing(phase.modules) then Exits(1) else phase.status
  }

  // ----- The session

  datatype View = View(log: seq<Entry>, signals: seq<Signal>, answers: nat)

  /** What a step that succeeds appends to the log, and the pipes after it: no signal is lost or read
      twice, and each is answered once, besides the preloaded answers. */
  ghost predicate Moves(a: View, b: View, more: seq<Entry>, preloaded: nat) {
    && b.log == a.log + more
    && Heard(more) + b.signals == a.signals
    && b.answers == a.answers + |Heard(more)| + preloaded
  }

  lemma {:induction false} MovesOn(a: View, b: View, c: View, more: seq<Entry>, evenMore: seq<Entry>, n: nat, m: nat)
    requires Moves(a, b, more, n) && Moves(b, c, evenMore, m)
    ensures Moves(a, c, more + evenMore, n + m)
  {
    LogAppend(more, evenMore);
  }

  /** A run that ends with 0 moves its trace from the pipe to the log. */
  lemma {:induction false} RunMoves(data: MonitorData, trace: bool, log: seq<Entry>, signals: seq<Signal>, answers: nat)
    returns (heard: seq<Signal>)
    requires var v := Run(data, trace, INITIAL, signals); v.Ended? && v.error == 0
    ensures Accepts(data, trace, heard)
    ensures var rest := Run(data, trace, INITIAL, signals).rest;
            && |rest| <= |signals|
            && Moves(View(log, signals, answers), View(log + [Ran(data, heard)], rest, answers + (|signals| - |rest|)),
                     [Ran(data, heard)], 0)
  {
    heard := RunReadsPrefix(data, trace, INITIAL, signals);
    OneEntry(Ran(data, heard));
  }

  class Monitoring {
    const trace: bool
    const store: LoadedModules
    var loads: seq<Load>
    var signals: seq<Signal>
    var answers: nat
    /** The init and fini counters of the modules loaded. */
    var counters: seq<(nat, nat)>
    ghost var log: seq<Entry>
    /** The modules to load keep the tables safe to run on. */
    ghost const loadable: bool

    constructor (trace: bool, loads: seq<Load>, signals: seq<Signal>)
      ensures this.trace == trace && this.loads == loads && this.signals == signals
      ensures loadable <==> Loadable([], loads)
      ensures fresh(store) && store.modules == [] && counters == [] && log == [] && answers == 0
    {
      this.trace, this.loads, this.signals := trace, loads, signals;
      store := new LoadedModules([]);
      answers, counters, log := 0, [], [];
      loadable := Loadable([], loads);
    }

    ghost predicate Valid()
      reads this, store
    {
      && RelocationsShaped(store.modules)
      && |counters| == |store.modules|
      && Shaped(loads)
      && RunsAccepted(log, trace)
      && (loadable ==> RunsDerivable(log))
    }

    ghost predicate Safe()
      reads this, store
    {
      loadable ==> SafeToRunOn(store.modules)
    }

    ghost function Seen(): View
      reads this
    {
      View(log, signals, answers)
    }

    /** err = monitor_run(data) */
    method Hear() returns (status: Status)
      modifies this`signals, this`answers
      ensures match Run(store.modules, trace, INITIAL, old(signals))
              case Waiting(_) => status == Stuck && signals == [] && answers == old(answers) + |old(signals)|
              case Faulted => status == Crash && signals == old(signals)
              case Ended(error, rest) =>
                && status == Exits(error) && signals == rest
                && answers == old(answers) + (|old(signals)| - |rest|) - (if error == 0 then 0 else 1)
    {
      var v := Run(store.modules, trace, INITIAL, signals);
      match v {
        case Waiting(_) =>
          answers, signals := answers + |signals|, [];
          status := Stuck;
        case Faulted =>
          status := Crash;
        case Ended(error, rest) =>
          ghost var heard := RunReadsPrefix(store.modules, trace, INITIAL, signals);
          answers := answers + (|signals| - |rest|) - (if error == 0 then 0 else 1);
          signals := rest;
          status := Exits(error);
      }
    }

    /** One run, logged if it is accepted. */
    method RunOnce() returns (status: Status, ghost more: seq<Entry>)
      requires Valid() && Safe()
      modifies this`signals, this`answers, this`log
      ensures Valid() && (status, signals) == OneRun(store.modules, trace, old(signals))
      ensures status == Exits(0) ==> Moves(old(Seen()), Seen(), more, 0) && AreRuns(more, 1, store.modules)
    {
      more := [];
      status := Hear();
      if status == Exits(0) {
        ghost var heard := RunMoves(store.modules, trace, log, old(signals), old(answers));
        more := [Ran(store.modules, heard)];
        if loadable {
          ExactLanguage(store.modules, trace, heard);
        }
        log := log + more;
      }
    }

    /** A counted loop of runs. */
    method RunMany(nb: nat) returns (status: Status, ghost more: seq<Entry>)
      requires Valid() && Safe()
      modifies this`signals, this`answers, this`log
      ensures Valid() && (status, signals) == Runs(store.modules, trace, nb, old(signals))
      ensures status == Exits(0) ==> Moves(old(Seen()), Seen(), more, 0) && AreRuns(more, nb, store.modules)
    {
      status, more := Exits(0), [];
      var i := 0;
      ghost var due := nb;
      while i < nb && status == Exits(0)
        invariant Valid() && 0 <= i <= nb && due == nb - i
        invariant Runs(store.modules, trace, nb, old(signals)) ==
                  if status == Exits(0) then Runs(store.modules, trace, due, signals) else (status, signals)
        invariant status == Exits(0) ==>
                    Moves(old(Seen()), Seen(), more, 0) && AreRuns(more, i, store.modules)
        decreases nb - i
      {
        ghost var here := Seen();
        ghost var one;
        FirstOfRuns(store.modules, trace, due, signals);
        status, one := RunOnce();
        if status == Exits(0) {
          MovesOn(old(Seen()), here, Seen(), more, one, 0, 0);
          MoreRuns(more, i, one, 1, store.modules);
        }
        more := more + one;
        i, due := i + 1, due - 1;
      }
    }

    /** The tables of one module and its provisional relocation. */
    method AddModule(md: ModuleData, inits: nat, finis: nat)
      requires Valid() && |md.relocations| == |md.functions|
      modifies this`log, this`counters, store
      ensures Valid() && store.modules == WithNext(old(store.modules), md)
      ensures log == old(log) + [Loaded(inits, finis)] && counters == old(counters) + [(inits, finis)]
    {
      store.modules := store.modules + [md];
      counters := counters + [(inits, finis)];
      var mid := |store.modules| - 1;
      ghost var before := store.modules;
      var err := store.ComputeRelocations(mid % TWO16, false);
      PassedOverIs(before, store.modules, mid % TWO16);
      NoMoreRuns(log, Loaded(inits, finis), trace);
      log := log + [Loaded(inits, finis)];
    }

    /** One module, then its init functions. */
    method LoadModule(md: ModuleData, inits: nat, finis: nat) returns (status: Status, ghost more: seq<Entry>)
      requires Valid() && Matches(log, counters) && |md.relocations| == |md.functions|
      requires loadable ==> SafeToRunOn(WithNext(store.modules, md))
      modifies this`signals, this`answers, this`log, this`counters, store
      ensures Valid() && Safe() && counters == old(counters) + [(inits, finis)]
      ensures store.modules == WithNext(old(store.modules), md)
      ensures (status, signals) == Runs(store.modules, trace, inits, old(signals))
      ensures status == Exits(0) ==> Matches(log, counters) && Moves(old(Seen()), Seen(), more, 0)
    {
      AddModule(md, inits, finis);
      ghost var entry := Loaded(inits, finis);
      ghost var here := Seen();
      ghost var runs;
      status, runs := RunMany(inits);
      more := [entry] + runs;
      if status == Exits(0) {
        OneEntry(entry);
        ModuleLoaded(old(log), old(counters), inits, finis, runs);
        MovesOn(old(Seen()), here, Seen(), [entry], runs, 0, 0);
      }
    }

    /** Modules until the end of the loading phase. */
    method LoadModules() returns (status: Status, ghost more: seq<Entry>)
      requires Valid() && log == [] && counters == [] && store.modules == []
      requires loadable ==> Loadable([], loads)
      modifies this`loads, this`signals, this`answers, this`log, this`counters, store
      ensures Valid() && Safe()
      ensures Phase(status, store.modules, counters, signals) == LoadPhase(trace, old(loads), [], [], old(signals))
      ensures status == Exits(0) ==> Matches(log, counters) && Moves(old(Seen()), Seen(), more, 0)
    {
      var terminated := false;
      status, more := Exits(0), [];
      while !terminated && status == Exits(0)
        invariant Valid() && Safe()
        invariant loadable && !terminated && status == Exits(0) ==> Loadable(store.modules, loads)
        invariant LoadPhase(trace, old(loads), [], [], old(signals)) ==
                  if terminated || status != Exits(0) then Phase(status, store.modules, counters, signals)
                  else LoadPhase(trace, loads, store.modules, counters, signals)
        invariant status == Exits(0) ==> Matches(log, counters) && Moves(old(Seen()), Seen(), more, 0)
        decreases |loads|, !terminated
      {
        if |loads| == 0 {
          status := Stuck;
          return;
        }
        ghost var here := Seen();
        ghost var one;
        status, terminated, one := LoadNext();
        if status == Exits(0) {
          MovesOn(old(Seen()), here, Seen(), more, one, 0, 0);
        }
        more := more + one;
      }
    }

    /** What monitor_load_module returns next, and the init functions of the module if it is one. */
    method LoadNext() returns (status: Status, terminated: bool, ghost more: seq<Entry>)
      requires Valid() && Safe() && Matches(log, counters) && |loads| > 0
      requires loadable ==> Loadable(store.modules, loads)
      modifies this`loads, this`signals, this`answers, this`log, this`counters, store
      ensures Valid() && Safe() && |loads| < |old(loads)|
      ensures LoadPhase(trace, old(loads), old(store.modules), old(counters), old(signals)) ==
              if terminated || status != Exits(0) then Phase(status, store.modules, counters, signals)
              else LoadPhase(trace, loads, store.modules, counters, signals)
      ensures status == Exits(0) ==> Matches(log, counters) && Moves(old(Seen()), Seen(), more, 0)
      ensures loadable && !terminated && status == Exits(0) ==> Loadable(store.modules, loads)
    {
      status, terminated, more := Exits(0), false, [];
      var load := loads[0];
      if loadable && load.Module? {
        NextIsLoadable(store.modules, loads);
      }
      loads := loads[1..];
      match load {
        case Terminated => terminated := true;
        case Failed => status := Exits(-1);
        case Module(md, inits, finis) => status, more := LoadModule(md, inits, finis);
      }
    }

    /** The loading phase, then the final relocation. */
    method MonitorLoad() returns (status: Status, ghost more: seq<Entry>)
      requires Valid() && log == [] && counters == [] && store.modules == []
      requires loadable ==> Loadable([], loads)
      modifies this`loads, this`signals, this`answers, this`log, this`counters, store
      ensures Valid() && (status == Exits(0) ==> Safe())
      ensures var phase := LoadPhase(trace, old(loads), [], [], old(signals));
              && status == LoadStatus(phase) && (signals, counters) == (phase.signals, phase.counters)
              && SameButRelocations(phase.modules, store.modules)
      ensures status == Exits(0) ==>
                && Moves(old(Seen()), Seen(), more + [LoadingEnds], 0) && Matches(more, counters)
                && (|store.modules| <= TWO16 ==> FullyRelocated(store.modules))
    {
      status, more := LoadModules();
      if status == Exits(0) {
        OneEntry(LoadingEnds);
        assert log == more;
        ghost var here := Seen();
        NoMoreRuns(log, LoadingEnds, trace);
        log := log + [LoadingEnds];
        MovesOn(old(Seen()), here, Seen(), more, [LoadingEnds], 0, 0);
        ghost var loaded := store.modules;
        var err := store.FinalRelocation();
        if err != 0 {
          status := Exits(err);
        } else if loadable {
          FinalModulesAreSafe(loaded, store.modules);
        }
      }
    }

    method ExpectedFinis() returns (nb: nat)
      ensures nb == SumFinis(counters)
    {
      nb := 0;
      for i := 0 to |counters|
        invariant nb == SumFinis(counters[..i])
      {
        assert counters[..i + 1] == counters[..i] + [counters[i]];
        SumsSnoc(counters[..i], counters[i]);
        nb := nb + counters[i].1;
      }
      assert counters[..|counters|] == counters;
    }

    /** The runs after the loading phase: the program itself, then the finis. */
    method RunProgram() returns (status: Status, ghost more: seq<Entry>)
      requires Valid() && Safe()
      modifies this`signals, this`answers, this`log
      ensures Valid() && (status, signals) == Runs(store.modules, trace, 1 + SumFinis(counters), old(signals))
      ensures status == Exits(0) ==>
                && Moves(old(Seen()), Seen(), more, 0)
                && AreRuns(more, 1 + SumFinis(counters), store.modules)
    {
      status, more := RunOnce();
      if status == Exits(0) {
        ghost var here := Seen();
        var nb := ExpectedFinis();
        ghost var ending;
        status, ending := RunMany(nb);
        if status == Exits(0) {
          MovesOn(old(Seen()), here, Seen(), more, ending, 0, 0);
          MoreRuns(more, 1, ending, nb, store.modules);
          more := more + ending;
        }
      }
    }

    method Preload(n: nat)
      modifies this`answers
      ensures answers == old(answers) + n
    {
      var i := 0;
      while i < n
        invariant i <= n && answers == old(answers) + i
      {
        answers := answers + 1;
        i := i + 1;
      }
    }

    /** The monitor process, with n answers to preload.  When the modules to load keep the tables safe,
        every run of the session, before or after the final relocation, was made on well-formed tables
        and its trace is in their language. */
    method MonitorProcess(n: nat) returns (status: Status)
      requires Valid() && log == [] && counters == [] && store.modules == []
      requires loadable ==> Loadable([], loads)
      modifies this, store
      ensures Valid() && RunsAccepted(log, trace) && (loadable ==> RunsDerivable(log))
      ensures var phase := LoadPhase(trace, old(loads), [], [], old(signals));
              && SameButRelocations(phase.modules, store.modules)
              && if LoadStatus(phase) != Exits(0) then status == LoadStatus(phase)
                 else
                   && (status, signals) == Runs(store.modules, trace, 1 + SumFinis(phase.counters), phase.signals)
                   && Safe() && (|store.modules| <= TWO16 ==> FullyRelocated(store.modules))
      ensures status == Exits(0) ==>
                && IsSessionLog(log, store.modules)
                && Inits(log) == SumInits(counters) && Finis(log) == SumFinis(counters)
                && Heard(log) + signals == old(signals)
                && answers == old(answers) + n + |Heard(log)|
    {
      ghost var loading, runs;
      ghost var phase := LoadPhase(trace, loads, [], [], signals);
      status, loading := MonitorLoad();
      if status != Exits(0) {
        return;
      }
      assert LoadStatus(phase) == Exits(0) && (signals, counters) == (phase.signals, phase.counters);
      Preload(n);
      ghost var here := Seen();
      status, runs := RunProgram();
      if status == Exits(0) {
        MovesOn(old(Seen()), here, Seen(), loading + [LoadingEnds], runs, n, 0);
        SessionOver(loading, counters, runs, store.modules);
        assert log == loading + [LoadingEnds] + runs;
      }
    }
  }
}
