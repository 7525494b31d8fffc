/**
 The two processes and the two pipes between them.  The client writes a signal and waits for an
 answer (send_monitor in include/picon/injected_code.c); the monitor, once the modules are loaded,
 preloads some answers and then runs, writing one answer per acknowledged signal
 (monitor/src/main.c, monitor/src/monitor_run.c).  Reads and writes of a message are atomic and
 happen in any order that the pipes allow.
 */
module Handshake {
  import opened Wrappers
  import opened MonitorTables
  import opened MonitorSpec
  import opened Injector
  import opened Execution

  // ----- The client's emitters

  class Client {
    /** The static record that every emitter overwrites before sending it; its module id is set once. */
    var cs: Signal
    var pipe: seq<Signal>

    constructor (moduleId: nat)
      ensures cs.mod == moduleId && pipe == []
    {
      cs := Signal(BeforeJump, moduleId, 0, 0);
      pipe := [];
    }

    method Send()
      modifies this`pipe
      ensures pipe == old(pipe) + [cs]
    {
      pipe := pipe + [cs];
    }

    /** The four emitters that name a function send what the instrumented instruction stands for. */
    method Notify(event: Event, nFct: nat)
      modifies this
      ensures cs.mod == old(cs.mod)
      ensures pipe == old(pipe) + EmitInstr(cs.mod, Cfi(event, nFct, 0))
    {
      cs := cs.(event := event);
      cs := cs.(fn := nFct);
      cs := cs.(block := 0);
      Send();
    }

    method NotifyJump(event: Event, fId: nat, idBB: nat)
      modifies this
      ensures cs.mod == old(cs.mod)
      ensures pipe == old(pipe) + EmitInstr(cs.mod, Cfi(event, fId, idBB))
    {
      cs := cs.(event := event);
      cs := cs.(fn := fId);
      cs := cs.(block := idBB);
      Send();
    }
  }

  // ----- The two processes

  /** Preloading: answers still to preload.  Listening: about to read a signal, in the run that has
      acknowledged the signals of current.  Answering: about to write the answer to a signal, and to go
      on as next says. */
  datatype Monitor =
    | Preloading(left: nat)
    | Listening(st: State, current: seq<Signal>, runsLeft: nat)
    | Answering(next: Monitor)
    | Finished
    | Dead(error: nat)
    | Crashed

  /** sent: every signal written so far; the last |pending| of them have not been read.
      answers: answers in the pipe.  completed: sends of the client that have returned. */
  datatype Net = Net(
    waiting: bool, sent: seq<Signal>, pending: seq<Signal>, answers: nat, completed: nat, monitor: Monitor,
      accepted: nat)

  datatype Action = ClientWrites(sig: Signal) | ClientReads | MonitorActs

  function Start(n: nat): Net {
    Net(false, [], [], 0, 0, Preloading(n), 0)
  }

  /** runs: how many runs the monitor makes, the main one and those of the fini functions. */
  function AfterSignal(data: MonitorData, trace: bool, m: Monitor, sig: Signal): Monitor
    requires m.Listening?
  {
    match Step(data, trace, m.st, sig)
    case Running(st) => Answering(Listening(st, m.current + [sig], m.runsLeft))
    case Stopped(error) =>
      if error != 0 then Dead(error)
      else Answering(if m.runsLeft == 0 then Finished else Listening(INITIAL, [], m.runsLeft - 1))
    case Fault => Crashed
  }

  function MonitorStep(data: MonitorData, trace: bool, finis: nat, s: Net): Option<Net> {
    match s.monitor
    case Preloading(left) =>
      if left > 0 then Some(s.(answers := s.answers + 1, monitor := Preloading(left - 1)))
      else Some(s.(monitor := Listening(INITIAL, [], finis)))
    case Listening(_, _, _) =>
      if s.pending == [] then None
      else Some(s.(pending := s.pending[1..], monitor := AfterSignal(data, trace, s.monitor, s.pending[0])))
    case Answering(next) =>
      Some(s.(answers := s.answers + 1, accepted := s.accepted + 1, monitor := next))
    case _ => None
  }

  /** None: the action is not possible now. */
  function Act(data: MonitorData, trace: bool, finis: nat, s: Net, a: Action): Option<Net> {
    match a
    case ClientWrites(sig) =>
      if s.waiting then None else Some(s.(waiting := true, sent := s.sent + [sig], pending := s.pending + [sig]))
    case ClientReads =>
      if !s.waiting || s.answers == 0 then None
      else Some(s.(waiting := false, answers := s.answers - 1, completed := s.completed + 1))
    case MonitorActs => MonitorStep(data, trace, finis, s)
  }

  /** The state after a possible interleaving. */
  function Interleave(data: MonitorData, trace: bool, finis: nat, s: Net, actions: seq<Action>): Option<Net>
    decreases |actions|
  {
    if actions == [] then Some(s)
    else
      match Act(data, trace, finis, s, actions[0])
      case None => None
      case Some(next) => Interleave(data, trace, finis, next, actions[1..])
  }

  // ----- What every interleaving keeps

  function Preloaded(n: nat, m: Monitor): int {
    if m.Preloading? then n - m.left else n
  }

  /** Signals that the monitor has read and not acknowledged. */
  function InHand(m: Monitor): nat {
    if m.Answering? || m.Dead? || m.Crashed? then 1 else 0
  }

  predicate ListensOn(data: MonitorData, trace: bool, m: Monitor) {
    match m
    case Listening(st, current, _) => Run(data, trace, INITIAL, current) == Waiting(st)
    case Answering(next) => (next.Listening? || next.Finished?) && ListensOn(data, trace, next)
    case _ => true
  }

  ghost predicate Balanced(data: MonitorData, trace: bool, n: nat, s: Net) {
    // every answer written is in the pipe or has been read
    && s.answers + s.completed == Preloaded(n, s.monitor) + s.accepted
    // every signal written is in the pipe, or in the monitor's hands, or acknowledged
    && |s.sent| == s.accepted + InHand(s.monitor) + |s.pending|
    && s.pending == s.sent[|s.sent| - |s.pending|..]
    // every send but the one under way has returned
    && |s.sent| == s.completed + (if s.waiting then 1 else 0)
    && (s.monitor.Preloading? ==> s.monitor.left <= n && s.accepted == 0)
    && ListensOn(data, trace, s.monitor)
  }

  lemma {:induction false} SignalKeepsListening(data: MonitorData, trace: bool, m: Monitor, sig: Signal)
    requires m.Listening? && ListensOn(data, trace, m)
    ensures ListensOn(data, trace, AfterSignal(data, trace, m, sig))
  {
    RunAppend(data, trace, INITIAL, m.current, [sig]);
    RunOne(data, trace, m.st, sig, []);
    assert [sig] + [] == [sig];
  }

  lemma {:induction false} ClientKeepsBalance(data: MonitorData, trace: bool, finis: nat, n: nat, s: Net, a: Action)
    requires Balanced(data, trace, n, s) && !a.MonitorActs? && Act(data, trace, finis, s, a).Some?
    ensures Balanced(data, trace, n, Act(data, trace, finis, s, a).value)
  {
    match a
    case ClientWrites(sig) =>
      var t := Act(data, trace, finis, s, a).value;
      assert t.sent[|t.sent| - |t.pending|..] == s.sent[|s.sent| - |s.pending|..] + [sig];
    case ClientReads =>
  }

  lemma {:induction false} ReadKeepsBalance(data: MonitorData, trace: bool, finis: nat, n: nat, s: Net)
    requires Balanced(data, trace, n, s) && s.monitor.Listening? && s.pending != []
    ensures Balanced(data, trace, n, MonitorStep(data, trace, finis, s).value)
  {
    SignalKeepsListening(data, trace, s.monitor, s.pending[0]);
    var t := MonitorStep(data, trace, finis, s).value;
    assert t.pending == s.sent[|s.sent| - |s.pending|..][1..] == s.sent[|s.sent| - |t.pending|..];
  }

  lemma {:induction false} WriteKeepsBalance(data: MonitorData, trace: bool, finis: nat, n: nat, s: Net)
    requires Balanced(data, trace, n, s) && !s.monitor.Listening? && MonitorStep(data, trace, finis, s).Some?
    ensures Balanced(data, trace, n, MonitorStep(data, trace, finis, s).value)
  {
    match s.monitor
    case Preloading(left) =>
    case Answering(next) =>
      var t := s.(answers := s.answers + 1, accepted := s.accepted + 1, monitor := next);
      assert MonitorStep(data, trace, finis, s) == Some(t);
      assert ListensOn(data, trace, t.monitor);
  }

  lemma {:induction false} ActKeepsBalance(data: MonitorData, trace: bool, finis: nat, n: nat, s: Net, a: Action)
    requires Balanced(data, trace, n, s) && Act(data, trace, finis, s, a).Some?
    ensures Balanced(data, trace, n, Act(data, trace, finis, s, a).value)
  {
    if !a.MonitorActs? {
      ClientKeepsBalance(data, trace, finis, n, s, a);
    } else if s.monitor.Listening? {
      ReadKeepsBalance(data, trace, finis, n, s);
    } else {
      WriteKeepsBalance(data, trace, finis, n, s);
    }
  }

  lemma {:induction false} InterleavingKeepsBalance(data: MonitorData, trace: bool, finis: nat, n: nat, s: Net,
                                                    actions: seq<Action>)
    requires Balanced(data, trace, n, s) && Interleave(data, trace, finis, s, actions).Some?
    ensures Balanced(data, trace, n, Interleave(data, trace, finis, s, actions).value)
    decreases |actions|
  {
    if actions != [] {
      ActKeepsBalance(data, trace, finis, n, s, actions[0]);
      InterleavingKeepsBalance(data, trace, finis, n, Act(data, trace, finis, s, actions[0]).value, actions[1..]);
    }
  }

  ghost predicate Reached(data: MonitorData, trace: bool, finis: nat, n: nat, s: Net) {
    exists actions :: Interleave(data, trace, finis, Start(n), actions) == Some(s)
  }

  lemma {:induction false} ReachedIsBalanced(data: MonitorData, trace: bool, finis: nat, n: nat, s: Net)
    requires Reached(data, trace, finis, n, s)
    ensures Balanced(data, trace, n, s)
  {
    var actions :| Interleave(data, trace, finis, Start(n), actions) == Some(s);
    InterleavingKeepsBalance(data, trace, finis, n, Start(n), actions);
  }

  // ----- Consequences

  /** Answers are conserved, and the client is at most n sends ahead of the signals acknowledged. */
  lemma {:induction false} RunAheadIsBounded(data: MonitorData, trace: bool, finis: nat, n: nat, s: Net)
    requires Reached(data, trace, finis, n, s)
    ensures !s.monitor.Preloading? ==> s.answers + s.completed == n + s.accepted
    ensures s.completed <= n + s.accepted
    ensures |s.pending| + InHand(s.monitor) <= n + 1
  {
    ReachedIsBalanced(data, trace, finis, n, s);
  }

  /** What the monitor has acknowledged in the current run is the stream its state comes from. */
  lemma {:induction false} MonitorListensToTheRun(data: MonitorData, trace: bool, finis: nat, n: nat, s: Net)
    requires Reached(data, trace, finis, n, s) && s.monitor.Listening?
    ensures Run(data, trace, INITIAL, s.monitor.current) == Waiting(s.monitor.st)
  {
    ReachedIsBalanced(data, trace, finis, n, s);
  }

  predicate Stuck(m: Monitor) {
    m.Dead? || m.Crashed?
  }

  lemma {:induction false} DeadStaysDead(data: MonitorData, trace: bool, finis: nat, s: Net, actions: seq<Action>)
    requires Stuck(s.monitor) && Interleave(data, trace, finis, s, actions).Some?
    ensures var t := Interleave(data, trace, finis, s, actions).value;
            t.monitor == s.monitor && t.accepted == s.accepted && |t.sent| >= |s.sent| && t.sent[..|s.sent|] == s.sent
    decreases |actions|
  {
    if actions != [] {
      DeadStaysDead(data, trace, finis, Act(data, trace, finis, s, actions[0]).value, actions[1..]);
    }
  }

  lemma {:induction false} InterleaveAppend(data: MonitorData, trace: bool, finis: nat, s: Net, a: seq<Action>,
                                            b: seq<Action>)
    requires Interleave(data, trace, finis, s, a).Some?
    ensures Interleave(data, trace, finis, s, a + b) ==
            Interleave(data, trace, finis, Interleave(data, trace, finis, s, a).value, b)
    decreases |a|
  {
    if a == [] {
      assert a + b == b;
    } else {
      assert (a + b)[1..] == a[1..] + b;
      InterleaveAppend(data, trace, finis, Act(data, trace, finis, s, a[0]).value, a[1..], b);
    }
  }

  /** Once the monitor has refused the signal sent in position k, whatever happens afterwards at most
      n sends return beyond the k that were acknowledged.  Without preloaded answers, the send of the
      refused signal never returns. */
  lemma {:induction false} RefusedSendNeverReturns(data: MonitorData, trace: bool, finis: nat, n: nat, s: Net,
                                                   actions: seq<Action>)
    requires Reached(data, trace, finis, n, s) && Stuck(s.monitor)
    requires Interleave(data, trace, finis, s, actions).Some?
    ensures var k := s.accepted;
            var t := Interleave(data, trace, finis, s, actions).value;
            && k < |s.sent| && t.accepted == k
            && t.completed <= k + n
            && (n == 0 ==> t.completed == k && t.waiting)
  {
    var before :| Interleave(data, trace, finis, Start(n), before) == Some(s);
    InterleaveAppend(data, trace, finis, Start(n), before, actions);
    var t := Interleave(data, trace, finis, s, actions).value;
    DeadStaysDead(data, trace, finis, s, actions);
    ReachedIsBalanced(data, trace, finis, n, s);
    ReachedIsBalanced(data, trace, finis, n, t);
  }

  // ----- What the monitor has read

  function Together(runs: seq<seq<Signal>>): seq<Signal> {
    if runs == [] then [] else Together(runs[..|runs| - 1]) + runs[|runs| - 1]
  }

  /** The signals read are those of accepted runs, and then those of one more: a run that goes on, or one
      that has been refused at its last signal. */
  ghost predicate IsHistory(data: MonitorData, trace: bool, finis: nat, m: Monitor, read: seq<Signal>,
                            runs: seq<seq<Signal>>, last: seq<Signal>)
    decreases m
  {
    && read == Together(runs) + last && (forall k | 0 <= k < |runs| :: Accepts(data, trace, runs[k]))
    && match m
       case Preloading(_) => runs == [] && last == []
       case Listening(st, current, left) =>
         last == current && Run(data, trace, INITIAL, last) == Waiting(st) && |runs| + left == finis
       case Answering(next) =>
         (next.Listening? || next.Finished?) && IsHistory(data, trace, finis, next, read, runs, last)
       case Finished => last == [] && |runs| == finis + 1
       case Dead(error) => Run(data, trace, INITIAL, last) == Ended(error, []) && error != 0
       case Crashed => Run(data, trace, INITIAL, last) == Faulted
  }

  /** The signals that the monitor has read. */
  function Read(s: Net): seq<Signal> {
    if |s.pending| <= |s.sent| then s.sent[..|s.sent| - |s.pending|] else []
  }

  lemma {:induction false} OneMoreRun(runs: seq<seq<Signal>>, last: seq<Signal>, sig: Signal)
    ensures Together(runs + [last + [sig]]) + [] == Together(runs) + last + [sig]
    ensures Together(runs) + (last + [sig]) == Together(runs) + last + [sig]
  {
    assert (runs + [last + [sig]])[..|runs|] == runs;
  }

  lemma {:induction false} SignalMakesHistory(data: MonitorData, trace: bool, finis: nat, m: Monitor,
                                              read: seq<Signal>, runs: seq<seq<Signal>>, last: seq<Signal>, sig: Signal)
    returns (runs': seq<seq<Signal>>, last': seq<Signal>)
    requires m.Listening? && IsHistory(data, trace, finis, m, read, runs, last)
    ensures IsHistory(data, trace, finis, AfterSignal(data, trace, m, sig), read + [sig], runs', last')
  {
    RunAppend(data, trace, INITIAL, last, [sig]);
    RunOne(data, trace, m.st, sig, []);
    assert [sig] + [] == [sig];
    OneMoreRun(runs, last, sig);
    runs', last' := runs, last + [sig];
    if Step(data, trace, m.st, sig) == Stopped(0) {
      runs', last' := runs + [last + [sig]], [];
    }
  }

  lemma {:induction false} ActMakesHistory(data: MonitorData, trace: bool, finis: nat, n: nat, s: Net, a: Action,
                                           runs: seq<seq<Signal>>, last: seq<Signal>)
    returns (runs': seq<seq<Signal>>, last': seq<Signal>)
    requires Balanced(data, trace, n, s) && IsHistory(data, trace, finis, s.monitor, Read(s), runs, last)
    requires Act(data, trace, finis, s, a).Some?
    ensures var t := Act(data, trace, finis, s, a).value;
            IsHistory(data, trace, finis, t.monitor, Read(t), runs', last')
  {
    runs', last' := runs, last;
    var t := Act(data, trace, finis, s, a).value;
    match a
    case ClientWrites(sig) =>
      assert Read(t) == Read(s);
    case ClientReads =>
    case MonitorActs =>
      if s.monitor.Listening? {
        assert Read(t) == Read(s) + [s.pending[0]] by {
          assert s.sent[|s.sent| - |s.pending|] == s.pending[0];
        }
        runs', last' := SignalMakesHistory(data, trace, finis, s.monitor, Read(s), runs, last, s.pending[0]);
      }
  }

  lemma {:induction false} ActionsMakeHistory(data: MonitorData, trace: bool, finis: nat, n: nat, s: Net,
                                              actions: seq<Action>, runs: seq<seq<Signal>>, last: seq<Signal>)
    returns (runs': seq<seq<Signal>>, last': seq<Signal>)
    requires Balanced(data, trace, n, s) && IsHistory(data, trace, finis, s.monitor, Read(s), runs, last)
    requires Interleave(data, trace, finis, s, actions).Some?
    ensures var t := Interleave(data, trace, finis, s, actions).value;
            IsHistory(data, trace, finis, t.monitor, Read(t), runs', last')
    decreases |actions|
  {
    runs', last' := runs, last;
    if actions != [] {
      ActKeepsBalance(data, trace, finis, n, s, actions[0]);
      runs', last' := ActMakesHistory(data, trace, finis, n, s, actions[0], runs, last);
      runs', last' := ActionsMakeHistory(data, trace, finis, n, Act(data, trace, finis, s, actions[0]).value,
                                         actions[1..], runs', last');
    }
  }

  /** Whatever happens, what the monitor has read is a number of accepted runs, and then the beginning of
      one more, or one that it has refused at its last signal, with the error that it has died of. */
  lemma {:induction false} ReadSignalsAreRuns(data: MonitorData, trace: bool, finis: nat, n: nat, s: Net)
    returns (runs: seq<seq<Signal>>, last: seq<Signal>)
    requires Reached(data, trace, finis, n, s)
    ensures |s.pending| <= |s.sent| && s.sent[..|s.sent| - |s.pending|] == Together(runs) + last
    ensures IsHistory(data, trace, finis, s.monitor, Together(runs) + last, runs, last)
  {
    var actions :| Interleave(data, trace, finis, Start(n), actions) == Some(s);
    runs, last := ActionsMakeHistory(data, trace, finis, n, Start(n), actions, [], []);
    ReachedIsBalanced(data, trace, finis, n, s);
  }

  // ----- Refusal

  lemma {:induction false} NothingAfterRefusal(data: MonitorData, trace: bool, finis: nat, s: Net, actions: seq<Action>)
    requires s.monitor.Listening? && s.pending != [] && !Step(data, trace, s.monitor.st, s.pending[0]).Running?
    requires Step(data, trace, s.monitor.st, s.pending[0]) != Stopped(0)
    requires Interleave(data, trace, finis, s, actions).Some?
    ensures var t := Interleave(data, trace, finis, s, actions).value;
            t.accepted == s.accepted && |t.sent| >= |s.sent|
    decreases |actions|
  {
    if actions != [] {
      var next := Act(data, trace, finis, s, actions[0]).value;
      if actions[0].MonitorActs? {
        DeadStaysDead(data, trace, finis, next, actions[1..]);
      } else {
        NothingAfterRefusal(data, trace, finis, next, actions[1..]);
      }
    }
  }

  /** When the next signal in the pipe is one that the run refuses, whatever happens afterwards nothing
      more is acknowledged, and at most n sends return beyond the acknowledged ones.  Without preloaded
      answers, the client waits for ever. */
  lemma {:induction false} RefusedSignalIsNeverAnswered(data: MonitorData, trace: bool, finis: nat, n: nat, s: Net,
                                                        actions: seq<Action>)
    requires Reached(data, trace, finis, n, s) && s.monitor.Listening? && s.pending != []
    requires var v := Run(data, trace, INITIAL, s.monitor.current + [s.pending[0]]);
             v.Faulted? || (v.Ended? && v.error != 0)
    requires Interleave(data, trace, finis, s, actions).Some?
    ensures var t := Interleave(data, trace, finis, s, actions).value;
            && t.accepted == s.accepted && t.completed <= s.accepted + n
            && (n == 0 ==> t.waiting)
  {
    var before :| Interleave(data, trace, finis, Start(n), before) == Some(s);
    InterleaveAppend(data, trace, finis, Start(n), before, actions);
    ReachedIsBalanced(data, trace, finis, n, s);
    RunAppend(data, trace, INITIAL, s.monitor.current, [s.pending[0]]);
    RunOne(data, trace, s.monitor.st, s.pending[0], []);
    assert [s.pending[0]] + [] == [s.pending[0]];
    NothingAfterRefusal(data, trace, finis, s, actions);
    ReachedIsBalanced(data, trace, finis, n, Interleave(data, trace, finis, s, actions).value);
  }

  /** A client that waits is never forgotten: as long as the monitor is alive, either there is an
      answer for it to read or the monitor has something to do. */
  lemma {:induction false} WaitingClientIsServed(data: MonitorData, trace: bool, finis: nat, n: nat, s: Net)
    requires Reached(data, trace, finis, n, s)
    requires s.waiting && !Stuck(s.monitor) && s.monitor != Finished
    ensures Act(data, trace, finis, s, ClientReads).Some? || Act(data, trace, finis, s, MonitorActs).Some?
  {
    ReachedIsBalanced(data, trace, finis, n, s);
  }

  // ----- The bound is reached

  function Preloads(n: nat): seq<Action> {
    if n == 0 then [] else [MonitorActs] + Preloads(n - 1)
  }

  function Sends(n: nat, sig: Signal): seq<Action> {
    if n == 0 then [] else [ClientWrites(sig), ClientReads] + Sends(n - 1, sig)
  }

  lemma {:induction false} PreloadsFill(data: MonitorData, trace: bool, finis: nat, n: nat, s: Net)
    requires s.monitor == Preloading(n)
    ensures Interleave(data, trace, finis, s, Preloads(n)) ==
              Some(s.(answers := s.answers + n, monitor := Preloading(0)))
    decreases n
  {
    if n > 0 {
      PreloadsFill(data, trace, finis, n - 1, s.(answers := s.answers + 1, monitor := Preloading(n - 1)));
    }
  }

  lemma {:induction false} SendsReturn(data: MonitorData, trace: bool, finis: nat, n: nat, sig: Signal, s: Net)
    requires !s.waiting && s.answers >= n
    ensures Interleave(data, trace, finis, s, Sends(n, sig)).Some?
    ensures var t := Interleave(data, trace, finis, s, Sends(n, sig)).value;
            t.completed == s.completed + n && t.accepted == s.accepted && t.monitor == s.monitor && !t.waiting
    decreases n
  {
    if n > 0 {
      var written := Act(data, trace, finis, s, ClientWrites(sig)).value;
      var read := Act(data, trace, finis, written, ClientReads).value;
      assert Sends(n, sig)[1..] == [ClientReads] + Sends(n - 1, sig);
      assert Sends(n, sig)[1..][1..] == Sends(n - 1, sig);
      SendsReturn(data, trace, finis, n - 1, sig, read);
    }
  }

  /** n sends can return before the monitor has read anything: the monitor is desynchronized by
      exactly n signals. */
  lemma {:induction false} RunAheadIsTight(data: MonitorData, trace: bool, finis: nat, n: nat, sig: Signal)
    ensures exists s :: Reached(data, trace, finis, n, s) && s.completed == n && s.accepted == 0
  {
    PreloadsFill(data, trace, finis, n, Start(n));
    var filled := Start(n).(answers := n, monitor := Preloading(0));
    SendsReturn(data, trace, finis, n, sig, filled);
    var s := Interleave(data, trace, finis, filled, Sends(n, sig)).value;
    InterleaveAppend(data, trace, finis, Start(n), Preloads(n), Sends(n, sig));
    assert Reached(data, trace, finis, n, s);
  }
}
