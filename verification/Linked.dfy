/**
 A linked set of binaries and the tables that are loaded for it, while binaries are still being loaded
 and after the final relocation: what they say of the program, and where they let its calls go.
 */
module Linked {
  import opened MonitorTables
  import opened MonitorSpec
  import opened Injector
  import opened Execution
  import opened EndToEnd
  import opened Acceptance
  import opened PassTables
  import opened Pipeline
  import opened Relocation

  /** The tables of the first binaries, whatever their relocations. */
  ghost predicate Describes(p: Program, data: MonitorData) {
    && |data| <= |p| <= TWO16
    && forall m | 0 <= m < |data| :: FitsWords(p[m]) && DescribesUnit(p[m], data[m])
  }

  /** What the loads and the final relocation leave. */
  ghost predicate LoadedFrom(p: Program, data: MonitorData) {
    Describes(p, data) && |data| == |p| && FullyRelocated(data)
  }

  lemma {:induction false} RelocationKeepsDescription(p: Program, before: MonitorData, data: MonitorData)
    requires Describes(p, before) && SameButRelocations(before, data)
    ensures Describes(p, data)
  {
    forall m | 0 <= m < |data| ensures FitsWords(p[m]) && DescribesUnit(p[m], data[m]) {
      assert DescribesUnit(p[m], before[m]);
      assert forall f | 0 <= f < |p[m].functions| :: DescribesFunction(p[m].functions[f], data[m].functions[f]);
    }
  }

  lemma {:induction false} DescribedIsWellFormed(u: Unit, md: ModuleData)
    requires FitsWords(u) && DescribesUnit(u, md)
    ensures WellFormedModule(md) && |md.functions| <= TWO32
  {
    assert forall f | 0 <= f < |md.functions| :: DescribesFunction(u.functions[f], md.functions[f]);
  }

  lemma {:induction false} LoadedIsWellFormed(p: Program, data: MonitorData)
    requires LoadedFrom(p, data)
    ensures WellFormed(data)
  {
    forall m | 0 <= m < |data| ensures WellFormedModule(data[m]) && |data[m].functions| <= TWO32 {
      DescribedIsWellFormed(p[m], data[m]);
    }
    FullyRelocatedIsWellFormed(data);
  }

  lemma {:induction false} LoadedFlag(p: Program, data: MonitorData, m: nat, f: nat)
    requires Describes(p, data) && m < |data| && HasFunc(p, m, f)
    ensures HasFunction(data, m, f)
    ensures data[m].functions[f].flags == p[m].functions[f].flag && data[m].functions[f].name == p[m].functions[f].name
  {
    assert DescribesUnit(p[m], data[m]);
    assert DescribesFunction(p[m].functions[f], data[m].functions[f]);
  }

  lemma {:induction false} LoadedCall(p: Program, data: MonitorData, m: nat, f: nat, k: nat, i: Instr)
    requires SourceProgram(p) && Describes(p, data) && m < |data| && HasBlock(p, m, f, k)
    requires i in p[m].functions[f].blocks[k].instrs && Monitored(p[m].names, i) && i.callee in p[m].names.ids
    ensures CallEdge(data, m, f, p[m].names.ids[i.callee])
  {
    assert SourceUnit(p[m]) && DescribesUnit(p[m], data[m]);
    var g := p[m].names.ids[i.callee];
    assert MakesCall(p[m], f, g);
  }

  lemma {:induction false} LoadedJump(p: Program, data: MonitorData, m: nat, f: nat, k: nat, s: nat)
    requires SourceProgram(p) && Describes(p, data) && m < |data| && HasBlock(p, m, f, k)
    requires p[m].functions[f].traced
    requires p[m].functions[f].blocks[k].terminator.Branch? && s in p[m].functions[f].blocks[k].terminator.succs
    ensures JumpEdge(data, m, f, k, s)
  {
    assert SourceUnit(p[m]) && DescribesUnit(p[m], data[m]);
    var func := p[m].functions[f];
    assert SourceBlock(p[m], func.blocks, k);
    assert DescribesFunction(func, data[m].functions[f]);
    assert s in Successors(func.blocks[k]);
  }

  /** Tables that describe the binaries and are safe to run on have every edge that an execution takes. */
  lemma {:induction false} DescribedTablesMatch(p: Program, data: MonitorData)
    requires SourceProgram(p) && Describes(p, data) && WellFormed(data)
    ensures TablesMatch(p, data)
  {
    forall m | 0 <= m < |data| ensures |data[m].functions| == |p[m].functions| {
      assert DescribesUnit(p[m], data[m]);
    }
    forall m: nat, f: nat, k: nat, i | m < |data| && HasBlock(p, m, f, k)
        && i in p[m].functions[f].blocks[k].instrs && Monitored(p[m].names, i) && i.callee in p[m].names.ids
      ensures CallEdge(data, m, f, p[m].names.ids[i.callee])
    {
      LoadedCall(p, data, m, f, k, i);
    }
    forall m: nat, f: nat, k: nat, s: nat | m < |data| && HasBlock(p, m, f, k) && p[m].functions[f].traced
        && p[m].functions[f].blocks[k].terminator.Branch? && s in p[m].functions[f].blocks[k].terminator.succs
      ensures JumpEdge(data, m, f, k, s)
    {
      LoadedJump(p, data, m, f, k, s);
    }
  }

  // ----- The relocations while binaries are still being loaded

  /** The entry of external function g of module m holds its resolution among the modules before m, or
      zero if they do not define it. */
  ghost predicate HoldsEarlier(data: MonitorData, m: nat, g: nat)
    requires HasFunction(data, m, g) && g < |data[m].relocations|
  {
    var name := data[m].functions[g].name;
    || (Unresolved(data[..m + 1], m, name) && data[m].relocations[g] == 0)
    || (exists k: nat, l: nat ::
          IsResolution(data[..m + 1], m, name, k, l) && data[m].relocations[g] == ModuleFunction(k, l))
  }

  ghost predicate ProvisionallyRelocated(data: MonitorData, m: nat)
    requires m < |data|
  {
    && |data[m].relocations| == |data[m].functions|
    && forall g | 0 <= g < |data[m].functions| && data[m].functions[g].flags.External? :: HoldsEarlier(data, m, g)
  }

  /** What the loading phase has made of the first binaries. */
  ghost predicate StagedFrom(p: Program, data: MonitorData) {
    Describes(p, data) && forall m | 0 <= m < |data| :: ProvisionallyRelocated(data, m)
  }

  lemma {:induction false} StaysProvisional(data: MonitorData, more: MonitorData, m: nat)
    requires m < |data| && m < |more| && data[..m + 1] == more[..m + 1] && ProvisionallyRelocated(data, m)
    ensures ProvisionallyRelocated(more, m)
  {
    assert data[m] == data[..m + 1][m] == more[m];
    forall g | 0 <= g < |more[m].functions| && more[m].functions[g].flags.External? ensures HoldsEarlier(more, m, g) {
      assert HoldsEarlier(data, m, g);
    }
  }

  /** One more binary, and the provisional pass over it. */
  lemma {:induction false} NextIsStaged(p: Program, data: MonitorData, md: ModuleData)
    requires StagedFrom(p, data) && |data| < |p| && FitsWords(p[|data|]) && DescribesUnit(p[|data|], md)
    requires AsLoaded(md)
    ensures RelocationsShaped(data) && StagedFrom(p, WithNext(data, md))
  {
    var mid, more := |data|, data + [md];
    assert forall m | 0 <= m < mid :: DescribesUnit(p[m], data[m]);
    var next := WithNext(data, md);
    assert Describes(p, more);
    NextKeepsModules(data, md);
    RelocationKeepsDescription(p, more, next);
    forall m | 0 <= m < |next| ensures ProvisionallyRelocated(next, m) {
      if m < mid {
        assert next[..m + 1] == data[..m + 1];
        StaysProvisional(data, next, m);
      } else {
        LastIsProvisional(data, md);
      }
    }
  }

  lemma {:induction false} LastIsProvisional(data: MonitorData, md: ModuleData)
    requires RelocationsShaped(data) && AsLoaded(md) && |data| < TWO16
    ensures ProvisionallyRelocated(WithNext(data, md), |data|)
  {
    var mid, more, next := |data|, data + [md], WithNext(data, md);
    NextKeepsModules(data, md);
    assert next[..mid + 1] == next;
    forall g | 0 <= g < |next[mid].functions| && next[mid].functions[g].flags.External?
      ensures HoldsEarlier(next, mid, g)
    {
      assert next[mid].relocations[g] == Relocated(more, mid, g);
      Relocation.SameResolution(more, next, mid, md.functions[g].name, |more|);
    }
  }

  // ----- Where the monitor expects a call to go

  /** The function table of the binary has the name with a flag other than External, which is what the
      search for definitions goes by. */
  predicate Offers(u: Unit, l: nat, name: string) {
    l < |u.functions| && !u.functions[l].flag.External? && u.functions[l].name == name
  }

  ghost predicate OffersNone(u: Unit, name: string) {
    forall l: nat | l < |u.functions| :: !Offers(u, l, name)
  }

  /** The search over the first n binaries finds (k, l) for a function of binary m. */
  ghost predicate Finds(p: Program, n: nat, m: nat, name: string, k: nat, l: nat) {
    && k < n <= |p| && k != m && Offers(p[k], l, name)
    && forall k' | k < k' < n && k' != m :: OffersNone(p[k'], name)
  }

  ghost predicate FindsNone(p: Program, n: nat, m: nat, name: string) {
    n <= |p| && forall k | 0 <= k < n && k != m :: OffersNone(p[k], name)
  }

  /** The binaries that the search for definitions goes over, when loading is over or still going on. */
  function Searched(p: Program, loading: bool, m: nat): nat {
    if loading then m + 1 else |p|
  }

  /** The function that the monitor expects a call to function f of binary m to enter: what the search
      finds if f is flagged External, or the pair (0, 0) if it finds nothing, and f itself otherwise. */
  ghost predicate Expected(p: Program, loading: bool, m: nat, f: nat, k: nat, l: nat) {
    && HasFunc(p, m, f)
    && var name, n := p[m].functions[f].name, Searched(p, loading, m);
    if !p[m].functions[f].flag.External? then (k, l) == (m, f)
    else Finds(p, n, m, name, k, l) || (FindsNone(p, n, m, name) && (k, l) == (0, 0))
  }

  /** The tables that the loading phase has made so far, or those of the final relocation. */
  ghost predicate TablesOf(p: Program, loading: bool, data: MonitorData) {
    if loading then StagedFrom(p, data) else LoadedFrom(p, data)
  }

  lemma {:induction false} FoundLast(p: Program, n: nat, m: nat, name: string, k: nat, l: nat, k': nat, l': nat)
    requires Finds(p, n, m, name, k, l) && k' < n && k' != m && Offers(p[k'], l', name)
    ensures k' <= k
  {
  }

  lemma {:induction false} FoundOnce(p: Program, n: nat, m: nat, name: string, k: nat, l: nat, k': nat, l': nat)
    requires SourceProgram(p) && Finds(p, n, m, name, k, l) && Finds(p, n, m, name, k', l')
    ensures (k, l) == (k', l')
  {
    FoundLast(p, n, m, name, k, l, k', l');
    FoundLast(p, n, m, name, k', l', k, l);
    assert SourceUnit(p[k]);
  }

  lemma {:induction false} OffersAre(p: Program, data: MonitorData, k: nat, name: string)
    requires Describes(p, data) && k < |data|
    ensures DefinesNot(data[k].functions, name) <==> OffersNone(p[k], name)
    ensures forall l: nat :: HasFunction(data, k, l) && Defines(data[k].functions[l], name) <==> Offers(p[k], l, name)
  {
    assert DescribesUnit(p[k], data[k]);
    assert forall l | 0 <= l < |p[k].functions| :: DescribesFunction(p[k].functions[l], data[k].functions[l]);
    if OffersNone(p[k], name) {
      forall l | 0 <= l < |data[k].functions| ensures !Defines(data[k].functions[l], name) {
        assert !Offers(p[k], l, name);
      }
    }
  }

  lemma {:induction false} ResolutionIsFound(p: Program, data: MonitorData, n: nat, m: nat, name: string, k: nat,
                                             l: nat)
    requires Describes(p, data) && m < n <= |data| && IsResolution(data[..n], m, name, k, l)
    ensures Finds(p, n, m, name, k, l) && k < TWO16 && l < TWO32
  {
    assert data[..n][k] == data[k];
    OffersAre(p, data, k, name);
    DescribedIsWellFormed(p[k], data[k]);
    forall k' | k < k' < n && k' != m ensures OffersNone(p[k'], name) {
      assert data[..n][k'] == data[k'];
      OffersAre(p, data, k', name);
    }
  }

  lemma {:induction false} UnresolvedIsNotFound(p: Program, data: MonitorData, n: nat, m: nat, name: string)
    requires Describes(p, data) && m < n <= |data| && Unresolved(data[..n], m, name)
    ensures FindsNone(p, n, m, name)
  {
    forall k | 0 <= k < n && k != m ensures OffersNone(p[k], name) {
      assert data[..n][k] == data[k];
      OffersAre(p, data, k, name);
    }
  }

  /** What the entry of an external function holds, in the loading phase and after it. */
  lemma {:induction false} EntryHolds(p: Program, loading: bool, data: MonitorData, m: nat, f: nat)
    requires SourceProgram(p) && TablesOf(p, loading, data) && HasFunction(data, m, f)
    requires data[m].functions[f].flags.External?
    ensures f < |data[m].relocations| && Searched(p, loading, m) <= |data|
    ensures var name, modules := data[m].functions[f].name, data[..Searched(p, loading, m)];
            || (Unresolved(modules, m, name) && data[m].relocations[f] == 0)
            || (exists k: nat, l: nat ::
                  IsResolution(modules, m, name, k, l) && data[m].relocations[f] == ModuleFunction(k, l))
  {
    if loading {
      assert ProvisionallyRelocated(data, m) && HoldsEarlier(data, m, f);
    } else {
      assert ModuleRelocated(data, m) && HoldsResolution(data, m, f);
      assert data[..|p|] == data;
    }
  }

  lemma {:induction false} ExternalTarget(p: Program, loading: bool, data: MonitorData, m: nat, f: nat)
    returns (k: nat, l: nat)
    requires SourceProgram(p) && TablesOf(p, loading, data) && m < |data| && HasFunc(p, m, f)
    requires p[m].functions[f].flag.External?
    ensures GoesTo(data, m, f, k, l) && Expected(p, loading, m, f, k, l)
  {
    LoadedFlag(p, data, m, f);
    EntryHolds(p, loading, data, m, f);
    var name, n := p[m].functions[f].name, Searched(p, loading, m);
    if Unresolved(data[..n], m, name) && data[m].relocations[f] == 0 {
      UnresolvedIsNotFound(p, data, n, m, name);
      k, l := 0, 0;
    } else {
      k, l :| IsResolution(data[..n], m, name, k, l) && data[m].relocations[f] == ModuleFunction(k, l);
      ResolutionIsFound(p, data, n, m, name, k, l);
      PackingProjectsBack(k, l);
    }
  }

  lemma {:induction false} ExpectedOnce(p: Program, loading: bool, m: nat, f: nat, k: nat, l: nat, k': nat, l': nat)
    requires SourceProgram(p) && Expected(p, loading, m, f, k, l) && Expected(p, loading, m, f, k', l')
    ensures (k, l) == (k', l')
  {
    var name, n := p[m].functions[f].name, Searched(p, loading, m);
    if Finds(p, n, m, name, k, l) && Finds(p, n, m, name, k', l') {
      FoundOnce(p, n, m, name, k, l, k', l');
    }
    assert Finds(p, n, m, name, k, l) ==> !FindsNone(p, n, m, name);
    assert Finds(p, n, m, name, k', l') ==> !FindsNone(p, n, m, name);
  }

  /** On the tables of a program, while they are being loaded and afterwards, a call goes exactly where
      the flags and the names of the function tables send it. */
  lemma {:induction false} TableTarget(p: Program, loading: bool, data: MonitorData, m: nat, f: nat, k: nat, l: nat)
    requires SourceProgram(p) && TablesOf(p, loading, data) && m < |data| && HasFunc(p, m, f)
    ensures GoesTo(data, m, f, k, l) <==> Expected(p, loading, m, f, k, l)
  {
    LoadedFlag(p, data, m, f);
    if p[m].functions[f].flag.External? {
      var k', l' := ExternalTarget(p, loading, data, m, f);
      if Expected(p, loading, m, f, k, l) {
        ExpectedOnce(p, loading, m, f, k, l, k', l');
      }
    }
  }

  // ----- Executions whose calls all go where the monitor expects them

  ghost predicate Tracked(p: Program, loading: bool, act: Activation)
    decreases act, 0
  {
    TrackedVisits(p, loading, act.mod, act.fn, act.visits)
  }

  ghost predicate TrackedVisits(p: Program, loading: bool, m: nat, f: nat, visits: Visits)
    decreases visits, 0
  {
    && TrackedCalls(p, loading, m, InstrsOf(p, m, f, visits.block), visits.calls)
    && (visits.More? ==> TrackedVisits(p, loading, m, f, visits.next))
  }

  ghost predicate TrackedCalls(p: Program, loading: bool, m: nat, instrs: seq<Instr>, calls: Calls)
    decreases calls, |instrs|
  {
    if instrs == [] || m >= |p| then true
    else if Monitored(p[m].names, instrs[0]) && instrs[0].callee in p[m].names.ids && calls.OneCall? then
      && Expected(p, loading, m, p[m].names.ids[instrs[0].callee], calls.act.mod, calls.act.fn)
      && Tracked(p, loading, calls.act)
      && TrackedCalls(p, loading, m, instrs[1..], calls.rest)
    else
      TrackedCalls(p, loading, m, instrs[1..], calls)
  }

  lemma {:induction false} TrackedFollows(p: Program, loading: bool, data: MonitorData, act: Activation)
    requires SourceProgram(p) && TablesOf(p, loading, data) && WellFormed(data)
    requires act.mod < |data| && ValidActivation(p, act)
    ensures Follows(p, data, act) <==> Tracked(p, loading, act)
    decreases act, 0
  {
    TrackedVisitsFollow(p, loading, data, act.mod, act.fn, act.visits);
  }

  lemma {:induction false} TrackedVisitsFollow(p: Program, loading: bool, data: MonitorData, m: nat, f: nat,
                                               visits: Visits)
    requires SourceProgram(p) && TablesOf(p, loading, data) && WellFormed(data)
    requires m < |data| && ValidVisits(p, m, f, visits)
    ensures FollowsVisits(p, data, m, f, visits) <==> TrackedVisits(p, loading, m, f, visits)
    decreases visits, 0
  {
    TrackedCallsFollow(p, loading, data, m, InstrsOf(p, m, f, visits.block), visits.calls);
    if visits.More? {
      TrackedVisitsFollow(p, loading, data, m, f, visits.next);
    }
  }

  lemma {:induction false} TrackedCallsFollow(p: Program, loading: bool, data: MonitorData, m: nat,
                                              instrs: seq<Instr>, calls: Calls)
    requires SourceProgram(p) && TablesOf(p, loading, data) && WellFormed(data)
    requires m < |data| && ValidCalls(p, m, instrs, calls)
    ensures FollowsCalls(p, data, m, instrs, calls) <==> TrackedCalls(p, loading, m, instrs, calls)
    decreases calls, |instrs|
  {
    if instrs != [] {
      if Monitored(p[m].names, instrs[0]) {
        var f := p[m].names.ids[instrs[0].callee];
        TableTarget(p, loading, data, m, f, calls.act.mod, calls.act.fn);
        if GoesTo(data, m, f, calls.act.mod, calls.act.fn) {
          TargetExists(data, m, f);
          TrackedFollows(p, loading, data, calls.act);
        }
        TrackedCallsFollow(p, loading, data, m, instrs[1..], calls.rest);
      } else {
        TrackedCallsFollow(p, loading, data, m, instrs[1..], calls);
      }
    }
  }

  // ----- The verdict on executions

  /** An execution of the instrumented program that starts where the loader or the system starts one. */
  ghost predicate IsExecution(p: Program, act: Activation)
    requires SourceProgram(p)
  {
    && ValidActivation(Instrumented(p), act) && HasFunc(p, act.mod, act.fn)
    && var flag := p[act.mod].functions[act.fn].flag; flag.Main? || flag.Init? || flag.Fini?
  }

  lemma {:induction false} ExecutionOnTables(p: Program, loading: bool, data: MonitorData, trace: bool, act: Activation)
    requires SourceProgram(p) && TablesOf(p, loading, data) && WellFormed(data)
    requires IsExecution(p, act) && act.mod < |data|
    ensures Accepts(data, trace, Emits(Instrumented(p), act)) <==> SingleExit(p, act) && Tracked(p, loading, act)
  {
    SameActivations(p, act);
    DescribedTablesMatch(p, data);
    LoadedFlag(p, data, act.mod, act.fn);
    TrackedFollows(p, loading, data, act);
    ExecutionVerdict(p, data, trace, act);
  }

  /** An execution of the instrumented program from an entry point is accepted, on the tables loaded for
      the program, exactly when each of its activations sends its EXIT once and is silent afterwards, and
      every call goes where the flags and the names of the function tables send it. */
  lemma {:induction false} LinkedExecutionIsAccepted(p: Program, data: MonitorData, trace: bool, act: Activation)
    requires SourceProgram(p) && LoadedFrom(p, data) && IsExecution(p, act)
    ensures Accepts(data, trace, Emits(Instrumented(p), act)) <==> SingleExit(p, act) && Tracked(p, false, act)
    ensures LastBlocksAreTheExits(p) ==> SingleExit(p, act)
  {
    LoadedIsWellFormed(p, data);
    ExecutionOnTables(p, false, data, trace, act);
    if LastBlocksAreTheExits(p) {
      SameActivations(p, act);
      VisitsLeaveOnce(p, act.mod, act.fn, act.visits);
    }
  }

  /** While binaries are still being loaded, the same holds of an execution that starts in one that is
      there, such as that of an init function, with what the search has found so far. */
  lemma {:induction false} InitExecutionIsAccepted(p: Program, data: MonitorData, trace: bool, act: Activation)
    requires SourceProgram(p) && StagedFrom(p, data) && WellFormed(data)
    requires IsExecution(p, act) && act.mod < |data|
    ensures Accepts(data, trace, Emits(Instrumented(p), act)) <==> SingleExit(p, act) && Tracked(p, true, act)
  {
    ExecutionOnTables(p, true, data, trace, act);
  }

  /** Every call that the linker resolves goes where the monitor expects it. */
  ghost predicate LinkerAgrees(p: Program) {
    forall m: nat, g, k: nat, l: nat | Resolves(p, m, g, k, l) :: Expected(p, false, m, p[m].names.ids[g], k, l)
  }

  /** The tables of a program describe it, and do so completely exactly when the linker agrees with the
      flags and names of the function tables. */
  lemma {:induction false} LoadedTablesDescribe(p: Program, data: MonitorData)
    requires SourceProgram(p) && LoadedFrom(p, data)
    ensures TablesMatch(p, data) && (TablesDescribe(p, data) <==> LinkerAgrees(p))
  {
    LoadedIsWellFormed(p, data);
    DescribedTablesMatch(p, data);
    forall m: nat, g, k: nat, l: nat | Resolves(p, m, g, k, l)
      ensures GoesTo(data, m, FunctionId(p, m, g), k, l) <==> Expected(p, false, m, p[m].names.ids[g], k, l)
    {
      TableTarget(p, false, data, m, p[m].names.ids[g], k, l);
    }
  }

  // ----- When the flags are sound

  /** A function that a binary defines is not flagged External there, and a name that is External in some
      binary is offered only by binaries that define it. */
  ghost predicate SoundFlags(p: Program) {
    && (forall m: nat, f: nat | Defined(p, m, f) :: !p[m].functions[f].flag.External?)
    && forall m: nat, f: nat, k: nat, l: nat | HasFunc(p, m, f) && p[m].functions[f].flag.External?
         && k < |p| && Offers(p[k], l, p[m].functions[f].name) :: Defined(p, k, l)
  }

  /** A function that a binary only declares is defined in at most one other binary. */
  ghost predicate DefinedOnce(p: Program) {
    forall m: nat, f: nat, k: nat, l: nat, k': nat, l': nat |
      && HasFunc(p, m, f) && !Defined(p, m, f)
      && k != m && Defined(p, k, l) && p[k].functions[l].name == p[m].functions[f].name
      && k' != m && Defined(p, k', l') && p[k'].functions[l'].name == p[m].functions[f].name ::
      (k, l) == (k', l')
  }

  /** The caller's binary defines the function, or flags it External. */
  predicate DefinedOrExternal(p: Program, m: nat, f: nat) {
    HasFunc(p, m, f) && (Defined(p, m, f) || p[m].functions[f].flag.External?)
  }

  lemma {:induction false} OnlyOffer(p: Program, m: nat, f: nat, k: nat, l: nat, k': nat)
    requires SoundFlags(p) && DefinedOnce(p) && HasFunc(p, m, f) && !Defined(p, m, f)
    requires p[m].functions[f].flag.External? && k != m && Defined(p, k, l)
    requires p[k].functions[l].name == p[m].functions[f].name && k' < |p| && k' != m && k' != k
    ensures OffersNone(p[k'], p[m].functions[f].name)
  {
    forall l': nat | l' < |p[k'].functions| ensures !Offers(p[k'], l', p[m].functions[f].name) {
      assert Offers(p[k'], l', p[m].functions[f].name) ==> Defined(p, k', l');
    }
  }

  /** With sound flags and a single definition of each declared name, a call is expected exactly if its
      binary does not declare the function under another flag than External and, while binaries are
      being loaded, the function is in its own binary or in one loaded before. */
  lemma {:induction false} SoundlyExpected(p: Program, loading: bool, m: nat, g: string, k: nat, l: nat)
    requires SourceProgram(p) && SoundFlags(p) && DefinedOnce(p) && Resolves(p, m, g, k, l)
    ensures var f := p[m].names.ids[g];
            Expected(p, loading, m, f, k, l) <==> DefinedOrExternal(p, m, f) && (loading ==> k <= m)
  {
    var f := p[m].names.ids[g];
    assert SourceUnit(p[m]);
    var n := Searched(p, loading, m);
    if !Defined(p, m, f) && p[m].functions[f].flag.External? && k < n {
      forall k' | k < k' < n && k' != m ensures OffersNone(p[k'], g) {
        OnlyOffer(p, m, f, k, l, k');
      }
      assert Offers(p[k], l, g);
      assert Finds(p, n, m, g, k, l);
    }
  }

  /** No call goes through a function that its binary only declares, flagged Main, Init or Fini. */
  predicate CallsDefined(p: Program, act: Activation)
    decreases act, 0
  {
    VisitsCallDefined(p, act.mod, act.fn, act.visits)
  }

  predicate VisitsCallDefined(p: Program, m: nat, f: nat, visits: Visits)
    decreases visits, 0
  {
    && CallsCallDefined(p, m, InstrsOf(p, m, f, visits.block), visits.calls)
    && (visits.More? ==> VisitsCallDefined(p, m, f, visits.next))
  }

  predicate CallsCallDefined(p: Program, m: nat, instrs: seq<Instr>, calls: Calls)
    decreases calls, |instrs|
  {
    if instrs == [] || m >= |p| then true
    else if Monitored(p[m].names, instrs[0]) && instrs[0].callee in p[m].names.ids && calls.OneCall? then
      && DefinedOrExternal(p, m, p[m].names.ids[instrs[0].callee])
      && CallsDefined(p, calls.act)
      && CallsCallDefined(p, m, instrs[1..], calls.rest)
    else
      CallsCallDefined(p, m, instrs[1..], calls)
  }

  /** Every call stays in its binary or goes to one loaded before. */
  predicate CallsBack(act: Activation)
    decreases act, 0
  {
    VisitsCallBack(act.mod, act.visits)
  }

  predicate VisitsCallBack(m: nat, visits: Visits)
    decreases visits, 0
  {
    CallsCallBack(m, visits.calls) && (visits.More? ==> VisitsCallBack(m, visits.next))
  }

  predicate CallsCallBack(m: nat, calls: Calls)
    decreases calls, 0
  {
    calls.OneCall? ==> calls.act.mod <= m && CallsBack(calls.act) && CallsCallBack(m, calls.rest)
  }

  /** The condition on calls, when the flags are sound and declared names have one definition. */
  lemma {:induction false} SoundlyTracked(p: Program, loading: bool, act: Activation)
    requires SourceProgram(p) && SoundFlags(p) && DefinedOnce(p) && ValidActivation(p, act)
    ensures Tracked(p, loading, act) <==> CallsDefined(p, act) && (loading ==> CallsBack(act))
    decreases act, 0
  {
    SoundlyTrackedVisits(p, loading, act.mod, act.fn, act.visits);
  }

  lemma {:induction false} SoundlyTrackedVisits(p: Program, loading: bool, m: nat, f: nat, visits: Visits)
    requires SourceProgram(p) && SoundFlags(p) && DefinedOnce(p) && ValidVisits(p, m, f, visits)
    ensures TrackedVisits(p, loading, m, f, visits) <==>
            VisitsCallDefined(p, m, f, visits) && (loading ==> VisitsCallBack(m, visits))
    decreases visits, 0
  {
    SoundlyTrackedCalls(p, loading, m, InstrsOf(p, m, f, visits.block), visits.calls);
    if visits.More? {
      SoundlyTrackedVisits(p, loading, m, f, visits.next);
    }
  }

  lemma {:induction false} SoundlyTrackedCalls(p: Program, loading: bool, m: nat, instrs: seq<Instr>, calls: Calls)
    requires SourceProgram(p) && SoundFlags(p) && DefinedOnce(p) && m < |p| && ValidCalls(p, m, instrs, calls)
    ensures TrackedCalls(p, loading, m, instrs, calls) <==>
            CallsCallDefined(p, m, instrs, calls) && (loading ==> CallsCallBack(m, calls))
    decreases calls, |instrs|
  {
    if instrs != [] {
      if Monitored(p[m].names, instrs[0]) {
        SoundlyExpected(p, loading, m, instrs[0].callee, calls.act.mod, calls.act.fn);
        SoundlyTracked(p, loading, calls.act);
        SoundlyTrackedCalls(p, loading, m, instrs[1..], calls.rest);
      } else {
        SoundlyTrackedCalls(p, loading, m, instrs[1..], calls);
      }
    }
  }

  /** A function that a binary only declares is flagged External there. */
  predicate DeclaredAreExternal(p: Program) {
    forall m: nat, f: nat | m < |p| && f < |p[m].functions| ::
      p[m].functions[f].blocks == [] ==> p[m].functions[f].flag.External?
  }

  lemma {:induction false} LinkerAgreesOnSoundFlags(p: Program)
    requires SourceProgram(p) && SoundFlags(p) && DefinedOnce(p) && DeclaredAreExternal(p)
    ensures LinkerAgrees(p)
  {
    forall m: nat, g, k: nat, l: nat | Resolves(p, m, g, k, l)
      ensures Expected(p, false, m, p[m].names.ids[g], k, l)
    {
      SoundlyExpected(p, false, m, g, k, l);
    }
  }
}
