/**
 A whole program, from the compilation of its binaries to the end of the monitor process: which lives of
 the instrumented program the monitor follows to the end.
 */
module WholeProgram {
  import opened MonitorTables
  import opened MonitorSpec
  import opened Injector
  import opened Execution
  import opened EndToEnd
  import opened Acceptance
  import opened Packing
  import opened Text
  import opened PassTables
  import opened FunctionIds
  import opened Pipeline
  import opened Relocation
  import opened Linked
  import opened Session
  import opened Lives
  import opened Sources

  // ----- Building and loading

  /** How a binary is compiled: the functions of each run of the pass, the name of its .fctid file,
      whether the file of block tables exists, and its post-dominators. */
  datatype Build = Build(parts: seq<seq<nat>>, path: string, blockFile: bool, ipds: seq<Ipd>)

  predicate CanBuild(u: Unit, b: Build) {
    && FitsWords(u) && CompiledIn(u, b.parts) && IsWordText(b.path) && !Reserved(b.path)
    && HasBlockFile(u, b.blockFile) && IsWord(|b.ipds|) && AllIpds(b.ipds) && AboutBlocks(u, b.ipds)
  }

  predicate CanBuildAll(p: Program, builds: seq<Build>) {
    |builds| == |p| <= TWO16 && forall m | 0 <= m < |p| :: CanBuild(p[m], builds[m])
  }

  /** The monitor does not refuse its tables: it has a function and, if block tables are sent, no
      post-dominator of a function without one. */
  predicate CanLoad(u: Unit, b: Build) {
    u.functions != [] && (b.blockFile ==> AboutTraced(u, b.ipds))
  }

  /** What loading a binary comes to. */
  ghost predicate IsLoadOf(u: Unit, b: Build, load: Load) {
    if !CanLoad(u, b) then load == Failed
    else
      && load.Module? && FitsWords(u) && DescribesUnit(u, load.md) && AsLoaded(load.md)
      && load.inits == CountFunctions(u.functions, Init) && load.finis == CountFunctions(u.functions, Fini)
  }

  /** The .fctid file of the binary has a line for main.  The generated constructor then ends the loading
      phase as soon as it has sent the binary. */
  predicate ListsMain(u: Unit) {
    "main" in u.names.ids
  }

  /** What the constructors of the binaries from m on send to the monitor, one after the other. */
  ghost predicate AreMessages(p: Program, builds: seq<Build>, m: nat, loads: seq<Load>)
    requires m <= |p| == |builds|
    decreases |p| - m
  {
    if m == |p| then loads == []
    else
      && loads != [] && IsLoadOf(p[m], builds[m], loads[0])
      && if ListsMain(p[m]) then |loads| > 1 && loads[1] == Terminated && AreMessages(p, builds, m + 1, loads[2..])
         else AreMessages(p, builds, m + 1, loads[1..])
  }

  method LoadBinary(u: Unit, b: Build) returns (load: Load)
    requires SourceUnit(u) && CanBuild(u, b)
    ensures IsLoadOf(u, b, load)
  {
    var tables, status := CompileAndLoad(u, b.parts, b.path, b.blockFile, b.ipds);
    if status.Error? {
      return Failed;
    }
    var md := ModuleData(tables.functions, tables.callGraph, tables.relocations);
    DescribedIsWellFormed(u, md);
    return Module(md, tables.inits, tables.finis);
  }

  /** All binaries, in the order in which their constructors run. */
  method LoadProgram(p: Program, builds: seq<Build>) returns (loads: seq<Load>)
    requires SourceProgram(p) && CanBuildAll(p, builds)
    ensures AreMessages(p, builds, 0, loads)
  {
    loads := [];
    for m := |p| downto 0
      invariant AreMessages(p, builds, m, loads)
    {
      assert SourceUnit(p[m]) && CanBuild(p[m], builds[m]);
      var load := LoadBinary(p[m], builds[m]);
      OneMoreBinary(p, builds, m, load, loads);
      loads := [load] + (if ListsMain(p[m]) then [Terminated] else []) + loads;
    }
  }

  lemma {:induction false} OneMoreBinary(p: Program, builds: seq<Build>, m: nat, load: Load, loads: seq<Load>)
    requires m < |p| == |builds| && AreMessages(p, builds, m + 1, loads) && IsLoadOf(p[m], builds[m], load)
    ensures AreMessages(p, builds, m, [load] + (if ListsMain(p[m]) then [Terminated] else []) + loads)
  {
    assert ([load] + [Terminated] + loads)[2..] == loads;
    assert ([load] + [] + loads)[1..] == loads;
  }

  // ----- How far the loading phase goes

  /** Some binary from m on lists main. */
  predicate MainFrom(p: Program, m: nat)
    requires m <= |p|
    decreases |p| - m
  {
    m < |p| && (ListsMain(p[m]) || MainFrom(p, m + 1))
  }

  /** One past the first binary from m on that lists main, or past the last binary if none does: the
      monitor hears of no other binary. */
  function Reach(p: Program, m: nat): (n: nat)
    requires m <= |p|
    ensures m <= n <= |p|
    decreases |p| - m
  {
    if m == |p| then |p| else if ListsMain(p[m]) then m + 1 else Reach(p, m + 1)
  }

  /** The last binary lists main and no other one does. */
  predicate MainIsLast(p: Program) {
    p != [] && ListsMain(p[|p| - 1]) && forall m | 0 <= m < |p| - 1 :: !ListsMain(p[m])
  }

  lemma {:induction false} MainIsLastReaches(p: Program, m: nat)
    requires m <= |p|
    ensures MainFrom(p, m) && Reach(p, m) == |p| <==>
            m < |p| && ListsMain(p[|p| - 1]) && forall i | m <= i < |p| - 1 :: !ListsMain(p[i])
    decreases |p| - m
  {
    if m < |p| && !ListsMain(p[m]) {
      MainIsLastReaches(p, m + 1);
    }
  }

  predicate HasMain(u: Unit) {
    exists f :: 0 <= f < |u.functions| && u.functions[f].name == "main"
  }

  /** A binary lists main exactly when it defines or declares a function of that name. */
  lemma {:induction false} MainIsListed(u: Unit)
    requires SourceUnit(u)
    ensures ListsMain(u) <==> HasMain(u)
  {
    if ListsMain(u) {
      assert u.functions[u.names.ids["main"]].name == "main";
    }
  }

  /** The last binary has a function called main and no other binary has. */
  lemma {:induction false} OnlyTheLastHasMain(p: Program)
    requires SourceProgram(p)
    ensures MainIsLast(p) <==> p != [] && forall m | 0 <= m < |p| :: HasMain(p[m]) <==> m == |p| - 1
  {
    forall m | 0 <= m < |p| ensures ListsMain(p[m]) <==> HasMain(p[m]) {
      assert SourceUnit(p[m]);
      MainIsListed(p[m]);
    }
  }

  /** The binaries from m up to n load. */
  predicate AllLoad(p: Program, builds: seq<Build>, m: nat, n: nat)
    requires n <= |p| == |builds|
  {
    forall i | m <= i < n :: CanLoad(p[i], builds[i])
  }

  function CountersOf(p: Program): seq<(nat, nat)> {
    seq(|p|, m requires 0 <= m < |p| => (CountFunctions(p[m].functions, Init), CountFunctions(p[m].functions, Fini)))
  }

  /** The fini functions of all binaries, each with the index of its binary. */
  function FiniFunctions(p: Program): set<(nat, nat)> {
    set m: nat, f: nat | m < |p| && f < |p[m].functions| && p[m].functions[f].flag.Fini? :: (m, f)
  }

  lemma {:induction false} Paired(m: nat, fs: set<nat>) returns (pairs: set<(nat, nat)>)
    ensures |pairs| == |fs| && forall pair: (nat, nat) :: pair in pairs <==> pair.0 == m && pair.1 in fs
    decreases |fs|
  {
    pairs := {};
    if fs != {} {
      var f :| f in fs;
      pairs := Paired(m, fs - {f});
      pairs := pairs + {(m, f)};
    }
  }

  lemma {:induction false} FiniFunctionsSnoc(p: Program, last: set<(nat, nat)>)
    requires p != []
    requires forall pair: (nat, nat) :: pair in last <==>
               pair.0 == |p| - 1 && pair.1 in Flagged(p[|p| - 1].functions, Fini)
    ensures FiniFunctions(p) == FiniFunctions(p[..|p| - 1]) + last && FiniFunctions(p[..|p| - 1]) !! last
  {
    forall pair: (nat, nat)
      ensures pair in FiniFunctions(p) <==> pair in FiniFunctions(p[..|p| - 1]) || pair in last
    {
    }
  }

  lemma {:induction false} CountersSnoc(p: Program)
    requires p != []
    ensures var n := |p| - 1;
            CountersOf(p) == CountersOf(p[..n]) +
            [(CountFunctions(p[n].functions, Init), CountFunctions(p[n].functions, Fini))]
  {
  }

  /** The runs that are due at the end are as many as there are fini functions. */
  lemma {:induction false} FinisAreCounted(p: Program)
    ensures SumFinis(CountersOf(p)) == |FiniFunctions(p)|
    decreases |p|
  {
    if p == [] {
      assert FiniFunctions(p) == {};
    } else {
      var n := |p| - 1;
      FinisAreCounted(p[..n]);
      CountersSnoc(p);
      SumsSnoc(CountersOf(p[..n]), CountersOf(p)[n]);
      CountIsCardinality(p[n].functions, Fini);
      var last := Paired(n, Flagged(p[n].functions, Fini));
      FiniFunctionsSnoc(p, last);
    }
  }

  lemma {:induction false} MessagesAreLoadable(p: Program, builds: seq<Build>, m: nat, loads: seq<Load>)
    requires m <= |p| == |builds| && AreMessages(p, builds, m, loads)
    ensures Shaped(loads) && |Sent(loads)| <= |p| - m
    ensures forall k | 0 <= k < |Sent(loads)| :: AsLoaded(Sent(loads)[k]) && Sent(loads)[k].functions != []
    decreases |p| - m
  {
    if m < |p| {
      if ListsMain(p[m]) {
        MessagesAreLoadable(p, builds, m + 1, loads[2..]);
        ShapedSkips(loads);
      } else {
        MessagesAreLoadable(p, builds, m + 1, loads[1..]);
        ShapedSkips(loads);
      }
    }
  }

  lemma {:induction false} ShapedSkips(loads: seq<Load>)
    requires loads != [] && (loads[0].Module? ==> |loads[0].md.relocations| == |loads[0].md.functions|)
    ensures Shaped(loads[1..]) ==> Shaped(loads)
    ensures |loads| > 1 && !loads[1].Module? && Shaped(loads[2..]) ==> Shaped(loads)
  {
    assert forall k | 1 <= k < |loads| :: loads[k] == loads[1..][k - 1];
    assert forall k | 2 <= k < |loads| :: loads[k] == loads[2..][k - 2];
  }

  ghost predicate IsModuleOf(p: Program, m: nat, md: ModuleData, counter: (nat, nat)) {
    m < |p| && FitsWords(p[m]) && DescribesUnit(p[m], md) && counter == CountersOf(p)[m]
  }

  /** These are the modules and the counters of the binaries from m on. */
  ghost predicate AreModulesOf(p: Program, m: nat, mds: seq<ModuleData>, counters: seq<(nat, nat)>) {
    |counters| == |mds| && forall k | 0 <= k < |mds| :: IsModuleOf(p, m + k, mds[k], counters[k])
  }

  lemma {:induction false} OneMoreModule(p: Program, m: nat, md: ModuleData, counter: (nat, nat),
                                         mds: seq<ModuleData>, counters: seq<(nat, nat)>)
    requires AreModulesOf(p, m + 1, mds, counters) && IsModuleOf(p, m, md, counter)
    ensures AreModulesOf(p, m, [md] + mds, [counter] + counters)
  {
    var more, all := [md] + mds, [counter] + counters;
    forall k | 0 <= k < |more| ensures IsModuleOf(p, m + k, more[k], all[k]) {
      if k > 0 {
        assert IsModuleOf(p, m + 1 + (k - 1), mds[k - 1], counters[k - 1]);
      }
    }
  }

  /** The modules sent before loading ends are those of the binaries that the monitor hears of. */
  lemma {:induction false} MessagesSent(p: Program, builds: seq<Build>, m: nat, loads: seq<Load>)
    requires m <= |p| == |builds| && AreMessages(p, builds, m, loads)
    requires |Sent(loads)| < |loads| && loads[|Sent(loads)|].Terminated?
    ensures MainFrom(p, m) && AllLoad(p, builds, m, Reach(p, m))
    ensures |Sent(loads)| == Reach(p, m) - m && AreModulesOf(p, m, Sent(loads), SentCounters(loads))
    decreases |p| - m
  {
    if ListsMain(p[m]) {
      assert Sent(loads[1..]) == [] && SentCounters(loads[1..]) == [];
      OneMoreModule(p, m, loads[0].md, (loads[0].inits, loads[0].finis), [], []);
    } else {
      MessagesSent(p, builds, m + 1, loads[1..]);
      OneMoreModule(p, m, loads[0].md, (loads[0].inits, loads[0].finis), Sent(loads[1..]), SentCounters(loads[1..]));
    }
  }

  // ----- The final relocation

  /** Another binary offers the name. */
  predicate OfferedElsewhere(p: Program, m: nat, name: string) {
    exists k: nat, l: nat | k < |p| && l < |p[k].functions| :: k != m && Offers(p[k], l, name)
  }

  /** Every function that a binary flags External is offered by another one. */
  predicate Closed(p: Program) {
    forall m: nat, f: nat | m < |p| && f < |p[m].functions| ::
      p[m].functions[f].flag.External? ==> OfferedElsewhere(p, m, p[m].functions[f].name)
  }

  lemma {:induction false} MissingIsNotOffered(p: Program, data: MonitorData, m: nat, f: nat)
    requires Describes(p, data) && |data| == |p| && HasFunc(p, m, f)
    ensures HasFunction(data, m, f)
    ensures Missing(data, m, f) <==>
            p[m].functions[f].flag.External? && !OfferedElsewhere(p, m, p[m].functions[f].name)
  {
    LoadedFlag(p, data, m, f);
    var name := p[m].functions[f].name;
    match ResolveExternal(data, m, f)
    case Some((k, l)) =>
      OffersAre(p, data, k, name);
      assert Offers(p[k], l, name);
    case None =>
      if OfferedElsewhere(p, m, name) {
        var k: nat, l: nat :| k < |p| && l < |p[k].functions| && k != m && Offers(p[k], l, name);
        OffersAre(p, data, k, name);
        assert false;
      }
  }

  lemma {:induction false} ClosedIsNothingMissing(p: Program, data: MonitorData)
    requires Describes(p, data) && |data| == |p|
    ensures Closed(p) <==> !SomeMissing(data)
  {
    forall m: nat, f: nat | HasFunction(data, m, f)
      ensures HasFunc(p, m, f)
      ensures Missing(data, m, f) <==>
              p[m].functions[f].flag.External? && !OfferedElsewhere(p, m, p[m].functions[f].name)
    {
      assert DescribesUnit(p[m], data[m]);
      MissingIsNotOffered(p, data, m, f);
    }
    forall m: nat, f: nat | HasFunc(p, m, f) ensures HasFunction(data, m, f) {
      LoadedFlag(p, data, m, f);
    }
  }

  // ----- What a program sends in its life

  /** inits[m] are the runs of the init functions of binary m; rest is the run of the program and those
      of the fini functions. */
  datatype Life = Life(inits: seq<seq<Activation>>, rest: seq<Activation>)

  /** One execution, in binary m, for each of its init functions. */
  ghost predicate AreInits(p: Program, m: nat, acts: seq<Activation>)
    requires SourceProgram(p) && m < |p|
  {
    && |acts| == CountFunctions(p[m].functions, Init) && AreExecutions(p, acts)
    && forall k | 0 <= k < |acts| :: acts[k].mod == m
  }

  /** Each init function runs once when its binary has been loaded; then the program runs, and each fini
      function once. */
  ghost predicate IsLife(p: Program, life: Life)
    requires SourceProgram(p)
  {
    && |life.inits| == |p|
    && (forall m | 0 <= m < |p| :: AreInits(p, m, life.inits[m]))
    && |life.rest| == 1 + SumFinis(CountersOf(p)) && AreExecutions(p, life.rest)
  }

  /** What the program sends from the init functions of binary m on, when rest is what follows the init
      functions.  A constructor waits for the id of its module, which the monitor does not send any more
      once the loading is over: behind a binary that lists main, the next one blocks. */
  ghost function ToSend(p: Program, inits: seq<seq<Activation>>, m: nat, rest: seq<Signal>): seq<Signal>
    requires SourceProgram(p) && m <= |p| == |inits|
    decreases |p| - m
  {
    if m == |p| then rest
    else EmitsAll(Instrumented(p), inits[m]) + After(p, inits, m, rest)
  }

  ghost function After(p: Program, inits: seq<seq<Activation>>, m: nat, rest: seq<Signal>): seq<Signal>
    requires SourceProgram(p) && m < |p| == |inits|
    decreases |p| - m, 0
  {
    if ListsMain(p[m]) && m + 1 < |p| then [] else ToSend(p, inits, m + 1, rest)
  }

  ghost function Sends(p: Program, life: Life): seq<Signal>
    requires SourceProgram(p) && |life.inits| == |p|
  {
    ToSend(p, life.inits, 0, EmitsAll(Instrumented(p), life.rest))
  }

  /** The init functions of the binaries from m up to n can be followed, on the tables there are when
      they run. */
  ghost predicate InitsClean(p: Program, inits: seq<seq<Activation>>, m: nat, n: nat) {
    forall i | m <= i < n && i < |inits| :: AllSingleExit(p, inits[i]) && AllTracked(p, true, inits[i])
  }

  ghost predicate Clean(p: Program, life: Life) {
    && InitsClean(p, life.inits, 0, |p|)
    && AllSingleExit(p, life.rest) && AllTracked(p, false, life.rest)
  }

  // ----- The loading phase

  lemma {:induction false} LostInLoading(trace: bool, loads: seq<Load>, modules: MonitorData,
                                         counters: seq<(nat, nat)>, signals: seq<Signal>)
    requires Shaped(loads) && RelocationsShaped(modules) && !Fresh(signals)
    ensures var phase := LoadPhase(trace, loads, modules, counters, signals); Lost(phase.status, phase.signals)
    decreases |loads|
  {
    if loads != [] && loads[0].Module? {
      var Module(md, inits, finis) := loads[0];
      var more := WithNext(modules, md);
      LostStaysLost(more, trace, inits, signals);
      var (status, unread) := Runs(more, trace, inits, signals);
      if status == Exits(0) {
        LostInLoading(trace, loads[1..], more, counters + [(inits, finis)], unread);
      }
    }
  }

  lemma {:induction false} InitsAreFresh(p: Program, inits: seq<seq<Activation>>, m: nat, rest: seq<Signal>)
    requires SourceProgram(p) && Fresh(rest) && m <= |p| == |inits|
    requires forall i | m <= i < |p| :: AreInits(p, i, inits[i])
    ensures Fresh(ToSend(p, inits, m, rest))
    ensures m < |p| ==> Fresh(After(p, inits, m, rest))
    decreases |p| - m
  {
    if m < |p| {
      InitsAreFresh(p, inits, m + 1, rest);
      assert AreInits(p, m, inits[m]);
      ExecutionsAreFresh(p, inits[m], After(p, inits, m, rest));
    }
  }

  /** The next binary is loaded and its init functions run. */
  lemma {:induction false} OneBinaryVerdict(p: Program, trace: bool, data: MonitorData, b: Build, load: Load,
                                            acts: seq<Activation>, rest: seq<Signal>)
    requires SourceProgram(p) && StagedFrom(p, data) && SafeToRunOn(data)
    requires |data| < |p| && IsLoadOf(p[|data|], b, load) && load.Module? && AreInits(p, |data|, acts) && Fresh(rest)
    ensures RelocationsShaped(data) && |load.md.relocations| == |load.md.functions|
    ensures var next := WithNext(data, load.md);
            && |next| == |data| + 1 && StagedFrom(p, next) && SafeToRunOn(next)
            && RightRuns(AllSingleExit(p, acts) && AllTracked(p, true, acts),
                         Runs(next, trace, load.inits, EmitsAll(Instrumented(p), acts) + rest), rest)
  {
    NextIsStaged(p, data, load.md);
    NextModuleIsSafe(data, load.md);
    NextKeepsModules(data, load.md);
    ExecutionsVerdict(p, true, WithNext(data, load.md), trace, acts, rest);
  }

  /** Loading goes on when all runs of a binary's init functions end with status 0. */
  lemma {:induction false} PhaseGoesOn(trace: bool, loads: seq<Load>, data: MonitorData,
                                       counters: seq<(nat, nat)>, signals: seq<Signal>, more: seq<Signal>)
    requires loads != [] && loads[0].Module? && RelocationsShaped(data) && Shaped(loads)
    ensures Shaped(loads[1..]) && RelocationsShaped(WithNext(data, loads[0].md))
    ensures var Module(md, inits, finis) := loads[0];
            Runs(WithNext(data, md), trace, inits, signals) == (Exits(0), more) ==>
              LoadPhase(trace, loads, data, counters, signals) ==
              LoadPhase(trace, loads[1..], WithNext(data, md), counters + [(inits, finis)], more)
  {
    NextKeepsModules(data, loads[0].md);
  }

  lemma {:induction false} PhaseIsLost(trace: bool, loads: seq<Load>, data: MonitorData,
                                       counters: seq<(nat, nat)>, signals: seq<Signal>)
    requires loads != [] && loads[0].Module? && RelocationsShaped(data) && Shaped(loads)
    requires var (status, unread) := Runs(WithNext(data, loads[0].md), trace, loads[0].inits, signals);
             Lost(status, unread)
    ensures var phase := LoadPhase(trace, loads, data, counters, signals); Lost(phase.status, phase.signals)
  {
    var Module(md, inits, finis) := loads[0];
    var next := WithNext(data, md);
    var (status, unread) := Runs(next, trace, inits, signals);
    PhaseGoesOn(trace, loads, data, counters, signals, unread);
    if status == Exits(0) {
      LostInLoading(trace, loads[1..], next, counters + [(inits, finis)], unread);
    }
  }

  /** What becomes of the loading phase from binary m on: it goes as far as there are binaries before the
      end of loading, if they all load and their init functions can be followed; it then ends if one of
      them lists main, and waits for ever otherwise. */
  ghost predicate RightPhase(p: Program, builds: seq<Build>, inits: seq<seq<Activation>>, m: nat, rest: seq<Signal>,
                             phase: Session.Phase)
    requires m <= |p| == |builds|
  {
    var n := Reach(p, m);
    if AllLoad(p, builds, m, n) && InitsClean(p, inits, m, n) then
      if MainFrom(p, m) then phase.status == Exits(0) && phase.signals == if n == |p| then rest else []
      else phase.status == Stuck
    else
      Lost(phase.status, phase.signals)
  }

  /** The loading phase over the next binary: it goes on if the init functions of the binary can be
      followed, and is lost otherwise. */
  lemma {:induction false} ModuleVerdict(p: Program, trace: bool, b: Build, loads: seq<Load>, data: MonitorData,
                                         counters: seq<(nat, nat)>, inits: seq<seq<Activation>>, rest: seq<Signal>)
    requires SourceProgram(p) && StagedFrom(p, data) && SafeToRunOn(data) && RelocationsShaped(data)
    requires |data| < |p| == |inits| && loads != [] && Shaped(loads) && Fresh(rest)
    requires IsLoadOf(p[|data|], b, loads[0]) && loads[0].Module?
    requires forall m | |data| <= m < |p| :: AreInits(p, m, inits[m])
    ensures var m, load := |data|, loads[0];
            var next, all := WithNext(data, load.md), counters + [(load.inits, load.finis)];
            var phase := LoadPhase(trace, loads, data, counters, ToSend(p, inits, m, rest));
            && |next| == m + 1 && StagedFrom(p, next) && SafeToRunOn(next)
            && RelocationsShaped(next) && Shaped(loads[1..])
            && if AllSingleExit(p, inits[m]) && AllTracked(p, true, inits[m]) then
                 phase == LoadPhase(trace, loads[1..], next, all, After(p, inits, m, rest))
               else Lost(phase.status, phase.signals)
  {
    var m := |data|;
    var more := After(p, inits, m, rest);
    InitsAreFresh(p, inits, m, rest);
    OneBinaryVerdict(p, trace, data, b, loads[0], inits[m], more);
    PhaseGoesOn(trace, loads, data, counters, ToSend(p, inits, m, rest), more);
    if !(AllSingleExit(p, inits[m]) && AllTracked(p, true, inits[m])) {
      PhaseIsLost(trace, loads, data, counters, ToSend(p, inits, m, rest));
    }
  }

  lemma {:induction false} RightFromNext(p: Program, builds: seq<Build>, inits: seq<seq<Activation>>, m: nat,
                                         rest: seq<Signal>, phase: Session.Phase)
    requires m < |p| == |inits| == |builds| && !ListsMain(p[m]) && CanLoad(p[m], builds[m])
    requires AllSingleExit(p, inits[m]) && AllTracked(p, true, inits[m])
    requires RightPhase(p, builds, inits, m + 1, rest, phase)
    ensures RightPhase(p, builds, inits, m, rest, phase)
  {
  }

  lemma {:induction false} RightAtMain(p: Program, builds: seq<Build>, inits: seq<seq<Activation>>, m: nat,
                                       rest: seq<Signal>, phase: Session.Phase)
    requires m < |p| == |inits| == |builds| && ListsMain(p[m]) && CanLoad(p[m], builds[m])
    requires AllSingleExit(p, inits[m]) && AllTracked(p, true, inits[m])
    requires phase.status == Exits(0) && phase.signals == if m + 1 == |p| then rest else []
    ensures RightPhase(p, builds, inits, m, rest, phase)
  {
  }

  lemma {:induction false} WrongPhase(p: Program, builds: seq<Build>, inits: seq<seq<Activation>>, m: nat,
                                      rest: seq<Signal>, phase: Session.Phase)
    requires m < |p| == |inits| == |builds| && Lost(phase.status, phase.signals)
    requires !(CanLoad(p[m], builds[m]) && AllSingleExit(p, inits[m]) && AllTracked(p, true, inits[m]))
    ensures RightPhase(p, builds, inits, m, rest, phase)
  {
  }

  lemma {:induction false} LoadingEnds(trace: bool, loads: seq<Load>, data: MonitorData,
                                       counters: seq<(nat, nat)>, signals: seq<Signal>)
    requires loads != [] && loads[0].Terminated? && Shaped(loads) && RelocationsShaped(data)
    ensures LoadPhase(trace, loads, data, counters, signals) == Phase(Exits(0), data, counters, signals)
  {
  }

  lemma {:induction false} BinaryFails(trace: bool, loads: seq<Load>, data: MonitorData,
                                       counters: seq<(nat, nat)>, signals: seq<Signal>)
    requires loads != [] && loads[0].Failed? && Shaped(loads) && RelocationsShaped(data)
    ensures LoadPhase(trace, loads, data, counters, signals).status == Exits(-1)
  {
  }

  lemma {:induction false} LoadingVerdict(p: Program, builds: seq<Build>, trace: bool, loads: seq<Load>,
                                          data: MonitorData, counters: seq<(nat, nat)>,
                                          inits: seq<seq<Activation>>, rest: seq<Signal>)
    requires SourceProgram(p) && StagedFrom(p, data) && SafeToRunOn(data) && RelocationsShaped(data)
    requires |inits| == |p| == |builds| && Fresh(rest)
    requires AreMessages(p, builds, |data|, loads) && Shaped(loads)
    requires forall m | |data| <= m < |p| :: AreInits(p, m, inits[m])
    ensures RightPhase(p, builds, inits, |data|, rest,
                       LoadPhase(trace, loads, data, counters, ToSend(p, inits, |data|, rest)))
    decreases |p| - |data|
  {
    var m := |data|;
    if m < |p| {
      var phase := LoadPhase(trace, loads, data, counters, ToSend(p, inits, m, rest));
      if !CanLoad(p[m], builds[m]) {
        BinaryFails(trace, loads, data, counters, ToSend(p, inits, m, rest));
        WrongPhase(p, builds, inits, m, rest, phase);
      } else {
        ModuleVerdict(p, trace, builds[m], loads, data, counters, inits, rest);
        if !(AllSingleExit(p, inits[m]) && AllTracked(p, true, inits[m])) {
          WrongPhase(p, builds, inits, m, rest, phase);
        } else if ListsMain(p[m]) {
          LoadingEnds(trace, loads[1..], WithNext(data, loads[0].md), counters + [(loads[0].inits, loads[0].finis)],
                      After(p, inits, m, rest));
          RightAtMain(p, builds, inits, m, rest, phase);
        } else {
          var next, all := WithNext(data, loads[0].md), counters + [(loads[0].inits, loads[0].finis)];
          LoadingVerdict(p, builds, trace, loads[1..], next, all, inits, rest);
          RightFromNext(p, builds, inits, m, rest, phase);
        }
      }
    }
  }

  // ----- The whole session

  /** How a session of the monitor ends after this loading phase. */
  ghost predicate Outcome(trace: bool, phase: Session.Phase, status: Session.Status, unread: seq<Signal>,
                          tables: MonitorData) {
    && SameButRelocations(phase.modules, tables)
    && if LoadStatus(phase) != Exits(0) then status == LoadStatus(phase)
       else
         && (status, unread) == Runs(tables, trace, 1 + SumFinis(phase.counters), phase.signals)
         && (|tables| <= TWO16 ==> FullyRelocated(tables))
  }

  /** The binaries that the monitor hears of. */
  function Heard(p: Program): Program {
    p[..Reach(p, 0)]
  }

  lemma {:induction false} HeardIsProgram(p: Program)
    requires SourceProgram(p)
    ensures SourceProgram(Heard(p)) && (Reach(p, 0) == |p| ==> Heard(p) == p)
  {
    forall m | 0 <= m < |Heard(p)| ensures SourceUnit(Heard(p)[m]) {
      assert SourceUnit(p[m]);
    }
  }

  /** What a successful loading phase over the binaries of p has come to. */
  ghost predicate PhaseOf(p: Program, builds: seq<Build>, phase: Session.Phase)
    requires |builds| == |p|
  {
    phase.status == Exits(0) ==>
      && MainFrom(p, 0) && AllLoad(p, builds, 0, Reach(p, 0))
      && Describes(Heard(p), phase.modules) && |phase.modules| == |Heard(p)|
      && phase.counters == CountersOf(Heard(p)) && (SomeMissing(phase.modules) <==> !Closed(Heard(p)))
  }

  lemma {:induction false} HeardModules(p: Program, mds: seq<ModuleData>, counters: seq<(nat, nat)>)
    requires |p| <= TWO16 && |mds| == Reach(p, 0) && AreModulesOf(p, 0, mds, counters)
    ensures Describes(Heard(p), mds) && counters == CountersOf(Heard(p))
  {
    var q := Heard(p);
    forall m | 0 <= m < |q| ensures FitsWords(q[m]) && DescribesUnit(q[m], mds[m]) && counters[m] == CountersOf(q)[m] {
      assert IsModuleOf(p, 0 + m, mds[m], counters[m]);
    }
  }

  /** When the loading phase ends well, the monitor has the binaries it has heard of, in order, whatever
      the runs in between. */
  lemma {:induction false} AfterLoading(p: Program, builds: seq<Build>, trace: bool, loads: seq<Load>,
                                        signals: seq<Signal>)
    requires |builds| == |p| <= TWO16 && AreMessages(p, builds, 0, loads) && Shaped(loads)
    ensures PhaseOf(p, builds, LoadPhase(trace, loads, [], [], signals))
  {
    var phase := LoadPhase(trace, loads, [], [], signals);
    if phase.status == Exits(0) {
      LoadPhaseKeepsModules(trace, loads, [], [], signals);
      SentBeforeAll(loads);
      MessagesSent(p, builds, 0, loads);
      HeardModules(p, Sent(loads), SentCounters(loads));
      RelocationKeepsDescription(Heard(p), Sent(loads), phase.modules);
      ClosedIsNothingMissing(Heard(p), phase.modules);
    }
  }

  lemma {:induction false} SentBeforeAll(loads: seq<Load>)
    ensures [] + Sent(loads) == Sent(loads) && [] + SentCounters(loads) == SentCounters(loads)
  {
  }

  lemma {:induction false} LoadedAfterAll(p: Program, builds: seq<Build>, trace: bool, phase: Session.Phase,
                                          status: Session.Status, unread: seq<Signal>, tables: MonitorData)
    requires |builds| == |p| && PhaseOf(p, builds, phase) && Outcome(trace, phase, status, unread, tables)
    requires LoadStatus(phase) == Exits(0)
    ensures MainFrom(p, 0) && AllLoad(p, builds, 0, Reach(p, 0))
    ensures Closed(Heard(p)) && LoadedFrom(Heard(p), tables)
  {
    RelocationKeepsDescription(Heard(p), phase.modules, tables);
  }

  lemma {:induction false} RestVerdict(p: Program, trace: bool, tables: MonitorData, acts: seq<Activation>)
    requires SourceProgram(p) && LoadedFrom(p, tables) && AreExecutions(p, acts)
    ensures RightRuns(AllSingleExit(p, acts) && AllTracked(p, false, acts),
                      Runs(tables, trace, |acts|, EmitsAll(Instrumented(p), acts)), [])
  {
    LoadedIsWellFormed(p, tables);
    assert forall k | 0 <= k < |acts| :: IsExecution(p, acts[k]);
    ExecutionsVerdict(p, false, tables, trace, acts, []);
    NothingAfter(EmitsAll(Instrumented(p), acts));
  }

  lemma {:induction false} NothingLoaded(p: Program)
    requires |p| <= TWO16
    ensures StagedFrom(p, []) && SafeToRunOn([])
  {
  }

  /** The loading phase over the init functions of a whole life. */
  lemma {:induction false} LoadingOfLife(p: Program, builds: seq<Build>, trace: bool, loads: seq<Load>, life: Life)
    requires SourceProgram(p) && |builds| == |p| <= TWO16 && AreMessages(p, builds, 0, loads) && Shaped(loads)
    requires IsLife(p, life)
    ensures RightPhase(p, builds, life.inits, 0, EmitsAll(Instrumented(p), life.rest),
                       LoadPhase(trace, loads, [], [], Sends(p, life)))
  {
    ExecutionsAreFresh(p, life.rest, []);
    NothingAfter(EmitsAll(Instrumented(p), life.rest));
    NothingLoaded(p);
    LoadingVerdict(p, builds, trace, loads, [], [], life.inits, EmitsAll(Instrumented(p), life.rest));
  }

  /** If no binary lists main, the monitor waits for the end of the loading phase for ever, even when
      everything else is as it should be. */
  lemma {:induction false} WithoutMainNothingEnds(p: Program, builds: seq<Build>, trace: bool, loads: seq<Load>,
                                                  life: Life)
    requires SourceProgram(p) && |builds| == |p| <= TWO16 && AreMessages(p, builds, 0, loads) && Shaped(loads)
    requires forall m | 0 <= m < |p| :: !ListsMain(p[m])
    ensures forall signals :: LoadPhase(trace, loads, [], [], signals).status != Exits(0)
    ensures IsLife(p, life) && AllLoad(p, builds, 0, |p|) && InitsClean(p, life.inits, 0, |p|) ==>
              LoadPhase(trace, loads, [], [], Sends(p, life)).status == Stuck
  {
    NoMainFrom(p, 0);
    forall signals ensures LoadPhase(trace, loads, [], [], signals).status != Exits(0) {
      AfterLoading(p, builds, trace, loads, signals);
    }
    if IsLife(p, life) {
      LoadingOfLife(p, builds, trace, loads, life);
    }
  }

  lemma {:induction false} NoMainFrom(p: Program, m: nat)
    requires m <= |p| && forall i | m <= i < |p| :: !ListsMain(p[i])
    ensures !MainFrom(p, m) && Reach(p, m) == |p|
    decreases |p| - m
  {
    if m < |p| {
      NoMainFrom(p, m + 1);
    }
  }

  /** The conditions on a life that the monitor follows to the end. */
  ghost predicate Followed(p: Program, builds: seq<Build>, life: Life)
    requires |builds| == |p|
  {
    MainIsLast(p) && AllLoad(p, builds, 0, |p|) && Closed(p) && Clean(p, life)
  }

  /** The monitor follows the whole life of the program to its end, reading everything, if and only if
      the last binary lists main and no other one does, every binary loads, every External function is
      offered by another binary, and every execution leaves each of its functions as it should and has
      its calls go where the tables send them at that time. */
  lemma {:induction false} LifeVerdict(p: Program, builds: seq<Build>, trace: bool, phase: Session.Phase, life: Life,
                                       status: Session.Status, unread: seq<Signal>, tables: MonitorData)
    requires SourceProgram(p) && |builds| == |p| && IsLife(p, life) && PhaseOf(p, builds, phase)
    requires RightPhase(p, builds, life.inits, 0, EmitsAll(Instrumented(p), life.rest), phase)
    requires Outcome(trace, phase, status, unread, tables)
    ensures (status, unread) == (Exits(0), []) <==> Followed(p, builds, life)
  {
    var rest := EmitsAll(Instrumented(p), life.rest);
    var loads := EverythingLoads(p, builds, life);
    var clean := AllSingleExit(p, life.rest) && AllTracked(p, false, life.rest);
    LoadsOrHopeless(p, builds, life.inits, rest, phase);
    if loads {
      RestOfLife(p, builds, trace, phase, life, status, unread, tables);
    }
    OutcomeVerdict(trace, phase, rest, |life.rest|, status, unread, tables, loads, Closed(p), clean);
  }

  /** The loading phase of the life goes over all binaries and ends. */
  ghost predicate EverythingLoads(p: Program, builds: seq<Build>, life: Life)
    requires |builds| == |p|
  {
    MainIsLast(p) && AllLoad(p, builds, 0, |p|) && InitsClean(p, life.inits, 0, |p|)
  }

  lemma {:induction false} LoadsOrHopeless(p: Program, builds: seq<Build>, inits: seq<seq<Activation>>,
                                           rest: seq<Signal>,
                                           phase: Session.Phase)
    requires |builds| == |p| && RightPhase(p, builds, inits, 0, rest, phase)
    ensures if MainIsLast(p) && AllLoad(p, builds, 0, |p|) && InitsClean(p, inits, 0, |p|) then
              phase.status == Exits(0) && phase.signals == rest
            else Hopeless(phase.status, phase.signals)
  {
    MainIsLastReaches(p, 0);
  }

  /** When everything loads and an External function is offered by no other binary, the monitor stops with
      status 1 before the program runs. */
  lemma {:induction false} OpenProgramExits(p: Program, builds: seq<Build>, trace: bool, phase: Session.Phase,
                                            life: Life, status: Session.Status, unread: seq<Signal>,
                                            tables: MonitorData)
    requires SourceProgram(p) && |builds| == |p| && IsLife(p, life) && PhaseOf(p, builds, phase)
    requires RightPhase(p, builds, life.inits, 0, EmitsAll(Instrumented(p), life.rest), phase)
    requires Outcome(trace, phase, status, unread, tables)
    requires MainIsLast(p) && AllLoad(p, builds, 0, |p|) && InitsClean(p, life.inits, 0, |p|)
    ensures !Closed(p) ==> status == Exits(1) && phase.signals == EmitsAll(Instrumented(p), life.rest)
  {
    MainIsLastReaches(p, 0);
    HeardIsProgram(p);
  }

  lemma {:induction false} RestOfLife(p: Program, builds: seq<Build>, trace: bool, phase: Session.Phase, life: Life,
                                      status: Session.Status, unread: seq<Signal>, tables: MonitorData)
    requires SourceProgram(p) && |builds| == |p| && IsLife(p, life) && PhaseOf(p, builds, phase)
    requires Outcome(trace, phase, status, unread, tables) && MainIsLast(p) && phase.status == Exits(0)
    ensures (SomeMissing(phase.modules) <==> !Closed(p)) && 1 + SumFinis(phase.counters) == |life.rest|
    ensures LoadStatus(phase) == Exits(0) ==>
              RightRuns(AllSingleExit(p, life.rest) && AllTracked(p, false, life.rest),
                        Runs(tables, trace, |life.rest|, EmitsAll(Instrumented(p), life.rest)), [])
  {
    MainIsLastReaches(p, 0);
    HeardIsProgram(p);
    if LoadStatus(phase) == Exits(0) {
      LoadedAfterAll(p, builds, trace, phase, status, unread, tables);
      RestVerdict(p, trace, tables, life.rest);
    }
  }

  /** Nothing is left for the runs that are still due, or something that they cannot begin with. */
  predicate Hopeless(status: Session.Status, unread: seq<Signal>) {
    status == Exits(0) ==> unread == [] || !Fresh(unread)
  }

  /** The same, once the conditions on loading, relocation and the remaining runs are known. */
  lemma {:induction false} OutcomeVerdict(trace: bool, phase: Session.Phase, rest: seq<Signal>, runs: nat,
                                          status: Session.Status, unread: seq<Signal>, tables: MonitorData,
                                          loads: bool, closed: bool, clean: bool)
    requires Outcome(trace, phase, status, unread, tables)
    requires if loads then phase.status == Exits(0) && phase.signals == rest else Hopeless(phase.status, phase.signals)
    requires loads ==> (SomeMissing(phase.modules) <==> !closed) && 1 + SumFinis(phase.counters) == runs
    requires loads && LoadStatus(phase) == Exits(0) ==> RightRuns(clean, Runs(tables, trace, runs, rest), [])
    ensures (status, unread) == (Exits(0), []) <==> loads && closed && clean
  {
    if LoadStatus(phase) == Exits(0) && !loads {
      NothingToHope(tables, trace, 1 + SumFinis(phase.counters), phase.signals);
    }
  }

  lemma {:induction false} NothingToHope(data: MonitorData, trace: bool, nb: nat, signals: seq<Signal>)
    requires nb > 0 && (signals == [] || !Fresh(signals))
    ensures var (status, unread) := Runs(data, trace, nb, signals); Lost(status, unread)
  {
    if signals != [] {
      LostStaysLost(data, trace, nb, signals);
    }
  }

  /** The verdicts that a session over the binaries of p stands for. */
  ghost predicate RightSession(p: Program, builds: seq<Build>, trace: bool, signals: seq<Signal>,
                               status: Session.Status, unread: seq<Signal>, tables: MonitorData)
    requires SourceProgram(p) && |builds| == |p|
  {
    && (status == Exits(0) ==>
          && MainFrom(p, 0) && AllLoad(p, builds, 0, Reach(p, 0))
          && Closed(Heard(p)) && LoadedFrom(Heard(p), tables) && SourceProgram(Heard(p))
          && forall act | IsExecution(Heard(p), act) ::
               Accepts(tables, trace, Emits(Instrumented(Heard(p)), act)) <==>
               SingleExit(Heard(p), act) && Tracked(Heard(p), false, act))
    && forall life | IsLife(p, life) && signals == Sends(p, life) ::
         (status, unread) == (Exits(0), []) <==> Followed(p, builds, life)
  }

  lemma {:induction false} SessionIsRight(p: Program, builds: seq<Build>, trace: bool, loads: seq<Load>,
                                          signals: seq<Signal>, status: Session.Status, unread: seq<Signal>,
                                          tables: MonitorData)
    requires SourceProgram(p) && |builds| == |p| <= TWO16 && AreMessages(p, builds, 0, loads) && Shaped(loads)
    requires Outcome(trace, LoadPhase(trace, loads, [], [], signals), status, unread, tables)
    ensures RightSession(p, builds, trace, signals, status, unread, tables)
  {
    var phase := LoadPhase(trace, loads, [], [], signals);
    var q := Heard(p);
    AfterLoading(p, builds, trace, loads, signals);
    HeardIsProgram(p);
    if status == Exits(0) {
      LoadedAfterAll(p, builds, trace, phase, status, unread, tables);
      forall act | IsExecution(q, act)
        ensures Accepts(tables, trace, Emits(Instrumented(q), act)) <==> SingleExit(q, act) && Tracked(q, false, act)
      {
        LinkedExecutionIsAccepted(q, tables, trace, act);
      }
    }
    forall life | IsLife(p, life) && signals == Sends(p, life)
      ensures (status, unread) == (Exits(0), []) <==> Followed(p, builds, life)
    {
      LoadingOfLife(p, builds, trace, loads, life);
      LifeVerdict(p, builds, trace, phase, life, status, unread, tables);
    }
  }

  /** The monitor process over these loads and signals. */
  method RunMonitor(trace: bool, loads: seq<Load>, n: nat, signals: seq<Signal>)
    returns (status: Session.Status, unread: seq<Signal>, tables: MonitorData)
    requires Shaped(loads) && Loadable([], loads)
    ensures Outcome(trace, LoadPhase(trace, loads, [], [], signals), status, unread, tables)
  {
    var monitoring := new Monitoring(trace, loads, signals);
    status := monitoring.MonitorProcess(n);
    unread, tables := monitoring.signals, monitoring.store.modules;
  }

  /** Compile every binary, load them all, relocate, run.  Once the loading has succeeded the tables are
      those of the binaries that the monitor has heard of, and it accepts exactly the executions in which
      each activation sends its EXIT once and is silent afterwards, and each call goes where the tables
      send it.  And when the signals are those of a whole life of the instrumented program, the condition
      is exact for the whole session. */
  method CompileAndMonitor(p: Program, builds: seq<Build>, trace: bool, n: nat, signals: seq<Signal>)
    returns (status: Session.Status, unread: seq<Signal>, tables: MonitorData)
    requires SourceProgram(p) && CanBuildAll(p, builds)
    ensures RightSession(p, builds, trace, signals, status, unread, tables)
  {
    var loads := LoadProgram(p, builds);
    MessagesAreLoadable(p, builds, 0, loads);
    status, unread, tables := RunMonitor(trace, loads, n, signals);
    SessionIsRight(p, builds, trace, loads, signals, status, unread, tables);
  }

  // ----- When the flags are sound

  /** With sound flags and a single definition of each declared name, the conditions on calls are that no
      call goes through a function declared under another flag than External and that no init function
      calls what is loaded later. */
  lemma {:induction false} SoundlyClean(p: Program, life: Life)
    requires SourceProgram(p) && SoundFlags(p) && DefinedOnce(p) && IsLife(p, life)
    ensures Clean(p, life) <==>
            && (forall m, k | 0 <= m < |p| && 0 <= k < |life.inits[m]| ::
                  && SingleExit(p, life.inits[m][k]) && CallsDefined(p, life.inits[m][k])
                  && CallsBack(life.inits[m][k]))
            && (forall k | 0 <= k < |life.rest| :: SingleExit(p, life.rest[k]) && CallsDefined(p, life.rest[k]))
  {
    forall m, k | 0 <= m < |p| && 0 <= k < |life.inits[m]|
      ensures Tracked(p, true, life.inits[m][k]) <==> CallsDefined(p, life.inits[m][k]) && CallsBack(life.inits[m][k])
    {
      assert AreInits(p, m, life.inits[m]) && IsExecution(p, life.inits[m][k]);
      SameActivations(p, life.inits[m][k]);
      SoundlyTracked(p, true, life.inits[m][k]);
    }
    forall k | 0 <= k < |life.rest| ensures Tracked(p, false, life.rest[k]) <==> CallsDefined(p, life.rest[k]) {
      assert IsExecution(p, life.rest[k]);
      SameActivations(p, life.rest[k]);
      SoundlyTracked(p, false, life.rest[k]);
    }
  }

  // ----- Programs made from sources

  /** When only the last binary lists main, no call goes through a mere declaration of it. */
  lemma {:induction false} CallsAreDefined(p: Program, recipes: seq<Recipe>, act: Activation)
    requires SourceProgram(p) && AreMade(p, recipes) && AllListDefined(recipes) && MainIsLast(p)
    requires ValidActivation(p, act)
    ensures CallsDefined(p, act)
    decreases act, 0
  {
    VisitsAreDefined(p, recipes, act.mod, act.fn, act.visits);
  }

  lemma {:induction false} VisitsAreDefined(p: Program, recipes: seq<Recipe>, m: nat, f: nat, visits: Visits)
    requires SourceProgram(p) && AreMade(p, recipes) && AllListDefined(recipes) && MainIsLast(p)
    requires ValidVisits(p, m, f, visits)
    ensures VisitsCallDefined(p, m, f, visits)
    decreases visits, 0
  {
    CallsInBlockAreDefined(p, recipes, m, InstrsOf(p, m, f, visits.block), visits.calls);
    if visits.More? {
      VisitsAreDefined(p, recipes, m, f, visits.next);
    }
  }

  lemma {:induction false} CallsInBlockAreDefined(p: Program, recipes: seq<Recipe>, m: nat, instrs: seq<Instr>,
                                                  calls: Calls)
    requires SourceProgram(p) && AreMade(p, recipes) && AllListDefined(recipes) && MainIsLast(p)
    requires m < |p| && ValidCalls(p, m, instrs, calls)
    ensures CallsCallDefined(p, m, instrs, calls)
    decreases calls, |instrs|
  {
    if instrs != [] {
      if Monitored(p[m].names, instrs[0]) {
        CalleeIsDefined(p, recipes, m, instrs[0].callee, calls.act.mod, calls.act.fn);
        CallsAreDefined(p, recipes, calls.act);
        CallsInBlockAreDefined(p, recipes, m, instrs[1..], calls.rest);
      } else {
        CallsInBlockAreDefined(p, recipes, m, instrs[1..], calls);
      }
    }
  }

  lemma {:induction false} CalleeIsDefined(p: Program, recipes: seq<Recipe>, m: nat, g: string, k: nat, l: nat)
    requires SourceProgram(p) && AreMade(p, recipes) && AllListDefined(recipes) && MainIsLast(p)
    requires Resolves(p, m, g, k, l)
    ensures DefinedOrExternal(p, m, p[m].names.ids[g])
  {
    MadeProgramIsSound(p, recipes);
    assert SourceUnit(p[m]) && SourceUnit(p[k]);
    var f := p[m].names.ids[g];
    if g == "main" {
      assert ListsMain(p[m]) && ListsMain(p[k]);
    }
    assert DefinedOrExternal(p, m, f) <==> Defined(p, m, f) || p[m].functions[f].name != "main";
  }

  /** The exact condition for a program made from sources whose declared names have one definition. */
  lemma {:induction false} MadeLifeVerdict(p: Program, recipes: seq<Recipe>, builds: seq<Build>, life: Life)
    requires AreMade(p, recipes) && AllListDefined(recipes) && DefinedOnce(p)
    requires |builds| == |p|
    ensures SourceProgram(p)
    ensures IsLife(p, life) ==>
              (Followed(p, builds, life) <==>
                 && MainIsLast(p) && AllLoad(p, builds, 0, |p|) && Closed(p)
                 && (forall m, k | 0 <= m < |p| && 0 <= k < |life.inits[m]| ::
                       SingleExit(p, life.inits[m][k]) && CallsBack(life.inits[m][k]))
                 && (forall k | 0 <= k < |life.rest| :: SingleExit(p, life.rest[k])))
  {
    MadeProgramIsSound(p, recipes);
    if IsLife(p, life) && MainIsLast(p) {
      SoundlyClean(p, life);
      LifeCallsAreDefined(p, recipes, life);
    }
  }

  lemma {:induction false} LifeCallsAreDefined(p: Program, recipes: seq<Recipe>, life: Life)
    requires SourceProgram(p) && AreMade(p, recipes) && AllListDefined(recipes) && MainIsLast(p) && IsLife(p, life)
    ensures forall m, k | 0 <= m < |p| && 0 <= k < |life.inits[m]| :: CallsDefined(p, life.inits[m][k])
    ensures forall k | 0 <= k < |life.rest| :: CallsDefined(p, life.rest[k])
  {
    forall m, k | 0 <= m < |p| && 0 <= k < |life.inits[m]| ensures CallsDefined(p, life.inits[m][k]) {
      assert AreInits(p, m, life.inits[m]) && IsExecution(p, life.inits[m][k]);
      SameActivations(p, life.inits[m][k]);
      CallsAreDefined(p, recipes, life.inits[m][k]);
    }
    forall k | 0 <= k < |life.rest| ensures CallsDefined(p, life.rest[k]) {
      assert IsExecution(p, life.rest[k]);
      SameActivations(p, life.rest[k]);
      CallsAreDefined(p, recipes, life.rest[k]);
    }
  }
}
