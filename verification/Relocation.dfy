/**
 Relocation of external functions (compute_relocations_of_module and the final pass of monitor_load,
 monitor/src/monitor_load.c).
 */
module Relocation {
  import opened Wrappers
  import opened MonitorTables

  predicate Defines(fd: FunctionData, name: string) {
    !fd.flags.External? && fd.name == name
  }

  /** (k, l) is the definition of name to use in module mid: it is in another module, in the one with
      the greatest index of those that define the name, and it is the first one there. */
  predicate IsResolution(modules: seq<ModuleData>, mid: nat, name: string, k: nat, l: nat) {
    && k != mid && HasFunction(modules, k, l) && Defines(modules[k].functions[l], name)
    && (forall l' | 0 <= l' < l :: !Defines(modules[k].functions[l'], name))
    && forall k' | k < k' < |modules| && k' != mid :: DefinesNot(modules[k'].functions, name)
  }

  predicate DefinesNot(fs: seq<FunctionData>, name: string) {
    forall l | 0 <= l < |fs| :: !Defines(fs[l], name)
  }

  predicate Unresolved(modules: seq<ModuleData>, mid: nat, name: string) {
    forall k | 0 <= k < |modules| && k != mid :: DefinesNot(modules[k].functions, name)
  }

  /** The word that the search stores for name, if it finds a definition. */
  function Resolve(modules: seq<ModuleData>, mid: nat, name: string, from: nat): (r: Option<(nat, nat)>)
    requires from <= |modules|
    requires forall k | from <= k < |modules| && k != mid :: DefinesNot(modules[k].functions, name)
    ensures r.None? <==> Unresolved(modules, mid, name)
    ensures r.Some? ==> IsResolution(modules, mid, name, r.value.0, r.value.1)
  {
    if from == 0 then None
    else
      var k := from - 1;
      if k != mid && First(modules[k].functions, name, 0).Some? then
        Some((k, First(modules[k].functions, name, 0).value))
      else
        Resolve(modules, mid, name, k)
  }

  function First(fs: seq<FunctionData>, name: string, from: nat): (r: Option<nat>)
    requires from <= |fs|
    requires forall l | 0 <= l < from :: !Defines(fs[l], name)
    ensures r.None? <==> DefinesNot(fs, name)
    ensures r.Some? ==> r.value < |fs| && Defines(fs[r.value], name)
    ensures r.Some? ==> forall l | 0 <= l < r.value :: !Defines(fs[l], name)
    decreases |fs| - from
  {
    if from == |fs| then None
    else if Defines(fs[from], name) then Some(from)
    else First(fs, name, from + 1)
  }

  /** A resolution comes before every other definition of the name in another module. */
  lemma {:induction false} ResolutionIsFirst(modules: seq<ModuleData>, mid: nat, name: string, k: nat, l: nat,
                                             k': nat, l': nat)
    requires IsResolution(modules, mid, name, k, l)
    requires k' != mid && HasFunction(modules, k', l') && Defines(modules[k'].functions[l'], name)
    ensures k' < k || (k' == k && l <= l')
  {
  }

  /** There is at most one resolution, so the search order is part of what it means. */
  lemma {:induction false} ResolutionIsUnique(modules: seq<ModuleData>, mid: nat, name: string, k: nat, l: nat,
                                              k': nat, l': nat)
    requires IsResolution(modules, mid, name, k, l) && IsResolution(modules, mid, name, k', l')
    ensures (k, l) == (k', l')
  {
    ResolutionIsFirst(modules, mid, name, k, l, k', l');
    ResolutionIsFirst(modules, mid, name, k', l', k, l);
  }

  function ResolveExternal(modules: seq<ModuleData>, mid: nat, j: nat): Option<(nat, nat)>
    requires HasFunction(modules, mid, j)
  {
    Resolve(modules, mid, modules[mid].functions[j].name, |modules|)
  }

  /** The relocation entry of function j once the pass has gone over it. */
  function Relocated(modules: seq<ModuleData>, mid: nat, j: nat): nat
    requires HasFunction(modules, mid, j) && j < |modules[mid].relocations|
  {
    if !modules[mid].functions[j].flags.External? then modules[mid].relocations[j]
    else
      match ResolveExternal(modules, mid, j)
      case None => modules[mid].relocations[j]
      case Some((k, l)) => ModuleFunction(k, l)
  }

  predicate Missing(modules: seq<ModuleData>, mid: nat, j: nat)
    requires HasFunction(modules, mid, j)
  {
    modules[mid].functions[j].flags.External? && ResolveExternal(modules, mid, j).None?
  }

  /** Some module that the final pass goes over declares a function that no other module defines. */
  predicate SomeMissing(modules: seq<ModuleData>) {
    exists m, j | 0 <= m < |modules| && 0 <= j < |modules[m].functions| :: m < TWO16 && Missing(modules, m, j)
  }

  predicate NoneMissing(modules: seq<ModuleData>, m: nat)
    requires m < |modules|
  {
    forall j | 0 <= j < |modules[m].functions| :: !Missing(modules, m, j)
  }

  /** The modules after a pass over module mid that is not stopped. */
  function PassedOver(modules: seq<ModuleData>, mid: nat): seq<ModuleData>
    requires mid < |modules| && |modules[mid].relocations| == |modules[mid].functions|
  {
    var relocations := seq(|modules[mid].functions|,
                           j requires 0 <= j < |modules[mid].functions| => Relocated(modules, mid, j));
    modules[mid := modules[mid].(relocations := relocations)]
  }

  lemma {:induction false} PassedOverIs(before: seq<ModuleData>, after: seq<ModuleData>, mid: nat)
    requires mid < |before| && RelocationsShaped(before) && SameButRelocations(before, after)
    requires forall m | 0 <= m < |after| && m != mid :: after[m] == before[m]
    requires forall j | 0 <= j < |after[mid].functions| :: after[mid].relocations[j] == Relocated(before, mid, j)
    ensures after == PassedOver(before, mid)
  {
    assert after[mid].relocations == PassedOver(before, mid)[mid].relocations;
    assert forall m | 0 <= m < |after| :: after[m] == PassedOver(before, mid)[m];
  }

  /** Everything before the first missing function has been relocated, and nothing from there on. */
  predicate StoppedAtMissing(modules: seq<ModuleData>, mid: nat, relocations: seq<nat>)
    requires mid < |modules| && |relocations| == |modules[mid].relocations| == |modules[mid].functions|
  {
    exists n | 0 <= n < |relocations| && Missing(modules, mid, n) ::
      forall j | 0 <= j < |relocations| ::
        (j < n ==> !Missing(modules, mid, j))
        && relocations[j] == if j < n then Relocated(modules, mid, j) else modules[mid].relocations[j]
  }

  predicate RelocationsShaped(modules: seq<ModuleData>) {
    forall m | 0 <= m < |modules| :: |modules[m].relocations| == |modules[m].functions|
  }

  /** Only relocation entries differ. */
  predicate SameButRelocations(a: seq<ModuleData>, b: seq<ModuleData>) {
    |a| == |b| && forall m | 0 <= m < |a| ::
      a[m].functions == b[m].functions && a[m].callGraph == b[m].callGraph && |a[m].relocations| == |b[m].relocations|
  }

  lemma {:induction false} SameResolution(a: seq<ModuleData>, b: seq<ModuleData>, mid: nat, name: string, from: nat)
    requires SameButRelocations(a, b) && from <= |a|
    requires forall k | from <= k < |a| && k != mid :: DefinesNot(a[k].functions, name)
    ensures Resolve(a, mid, name, from) == Resolve(b, mid, name, from)
    decreases from
  {
    if from > 0 && !(from - 1 != mid && First(a[from - 1].functions, name, 0).Some?) {
      SameResolution(a, b, mid, name, from - 1);
    }
  }

  class LoadedModules {
    var modules: seq<ModuleData>

    constructor (modules: seq<ModuleData>)
      ensures this.modules == modules
    {
      this.modules := modules;
    }

    /** Returns 1 at the first unresolved external function if that is fatal. */
    method ComputeRelocations(mid: nat, unresolvedIsFatal: bool) returns (err: nat)
      requires mid < |modules| && RelocationsShaped(modules)
      modifies this
      ensures SameButRelocations(old(modules), modules)
      ensures forall m | 0 <= m < |modules| && m != mid :: modules[m] == old(modules)[m]
      ensures err == 0 ==> forall j | 0 <= j < |modules[mid].functions| ::
                modules[mid].relocations[j] == Relocated(old(modules), mid, j)
      ensures err == 0 && unresolvedIsFatal ==> forall j | 0 <= j < |modules[mid].functions| ::
                !Missing(old(modules), mid, j)
      ensures err != 0 ==>
                err == 1 && unresolvedIsFatal && StoppedAtMissing(old(modules), mid, modules[mid].relocations)
    {
      var n := |modules[mid].functions|;
      for j := 0 to n
        invariant SameButRelocations(old(modules), modules)
        invariant forall m | 0 <= m < |modules| && m != mid :: modules[m] == old(modules)[m]
        invariant forall i | 0 <= i < n ::
                    modules[mid].relocations[i] ==
                    if i < j then Relocated(old(modules), mid, i) else old(modules)[mid].relocations[i]
        invariant unresolvedIsFatal ==> forall i | 0 <= i < j :: !Missing(old(modules), mid, i)
      {
        if modules[mid].functions[j].flags.External? {
          var found := Search(mid, modules[mid].functions[j].name);
          SameResolution(old(modules), modules, mid, modules[mid].functions[j].name, |modules|);
          match found {
            case Some((k, l)) =>
              var midata := modules[mid];
              modules := modules[mid := midata.(relocations := midata.relocations[j := ModuleFunction(k, l)])];
            case None =>
              if unresolvedIsFatal {
                assert Missing(old(modules), mid, j);
                return 1;
              }
          }
        }
      }
      return 0;
    }

    /** The two nested loops: modules from the last to the first, functions from the first on. */
    method Search(mid: nat, name: string) returns (found: Option<(nat, nat)>)
      ensures found == Resolve(modules, mid, name, |modules|)
    {
      var k := |modules|;
      while k > 0
        invariant 0 <= k <= |modules|
        invariant forall i | k <= i < |modules| && i != mid :: DefinesNot(modules[i].functions, name)
        invariant Resolve(modules, mid, name, |modules|) == Resolve(modules, mid, name, k)
      {
        k := k - 1;
        if k != mid {
          var fs := modules[k].functions;
          var l := 0;
          while l < |fs|
            invariant 0 <= l <= |fs|
            invariant forall i | 0 <= i < l :: !Defines(fs[i], name)
            invariant First(fs, name, 0) == First(fs, name, l)
          {
            if !fs[l].flags.External? && fs[l].name == name {
              return Some((k, l));
            }
            l := l + 1;
          }
        }
      }
      return None;
    }

    /** The last loop of monitor_load; the module index is truncated to the 16 bits of module_id. */
    method FinalRelocation() returns (err: nat)
      requires RelocationsShaped(modules)
      modifies this
      ensures SameButRelocations(old(modules), modules)
      ensures err == 0 && |modules| <= TWO16 ==> FullyRelocated(modules)
      ensures err == if SomeMissing(old(modules)) then 1 else 0
    {
      err := 0;
      var i := 0;
      while err == 0 && i < |modules|
        invariant 0 <= i <= |modules| == |old(modules)|
        invariant SameButRelocations(old(modules), modules)
        invariant err == 0 ==> RelocatedSoFar(old(modules), modules, i)
        invariant err != 0 ==> err == 1 && SomeMissing(old(modules))
        decreases |modules| - i, err == 0
      {
        ghost var before := modules;
        err := ComputeRelocations(i % TWO16, true);
        if err == 0 {
          OneMoreRelocated(old(modules), before, modules, i);
        } else {
          SameMissing(old(modules), before, i % TWO16);
        }
        i := i + 1;
      }
      if err == 0 {
        NothingMissing(old(modules), modules);
      }
    }
  }

  /** What the final pass has done after the first n modules. */
  ghost predicate RelocatedSoFar(original: seq<ModuleData>, modules: seq<ModuleData>, n: nat) {
    && n <= |modules| == |original|
    && (n <= TWO16 ==> forall m | 0 <= m < n :: ModuleRelocated(modules, m))
    && forall m | 0 <= m < n && m < TWO16 :: NoneMissing(original, m)
  }

  lemma {:induction false} OneMoreRelocated(original: seq<ModuleData>, before: seq<ModuleData>,
                                            after: seq<ModuleData>, n: nat)
    requires SameButRelocations(original, before) && SameButRelocations(before, after) && RelocationsShaped(before)
    requires n < |before| && RelocatedSoFar(original, before, n)
    requires forall m | 0 <= m < |after| && m != n % TWO16 :: after[m] == before[m]
    requires forall j | 0 <= j < |after[n % TWO16].functions| ::
               && after[n % TWO16].relocations[j] == Relocated(before, n % TWO16, j)
               && !Missing(before, n % TWO16, j)
    ensures RelocatedSoFar(original, after, n + 1)
  {
    SameMissing(original, before, n % TWO16);
    NowRelocated(before, after, n % TWO16);
    if n < TWO16 {
      forall m | 0 <= m < n ensures ModuleRelocated(after, m) {
        StaysRelocated(before, after, m);
      }
    }
  }

  lemma {:induction false} NothingMissing(original: seq<ModuleData>, modules: seq<ModuleData>)
    requires RelocatedSoFar(original, modules, |modules|)
    ensures !SomeMissing(original)
    ensures |modules| <= TWO16 ==> FullyRelocated(modules)
  {
    forall m, j | 0 <= m < |original| && 0 <= j < |original[m].functions| && m < TWO16
      ensures !Missing(original, m, j)
    {
      assert NoneMissing(original, m);
    }
  }

  /** The relocation entry j of module m is the resolution of the function's name, packed. */
  ghost predicate HoldsResolution(modules: seq<ModuleData>, m: nat, j: nat)
    requires HasFunction(modules, m, j) && j < |modules[m].relocations|
  {
    exists k: nat, l: nat ::
      (IsResolution(modules, m, modules[m].functions[j].name, k, l)
       && modules[m].relocations[j] == ModuleFunction(k, l))
  }

  ghost predicate ModuleRelocated(modules: seq<ModuleData>, m: nat)
    requires m < |modules|
  {
    && |modules[m].relocations| == |modules[m].functions|
    && forall j | 0 <= j < |modules[m].functions| && modules[m].functions[j].flags.External? ::
         HoldsResolution(modules, m, j)
  }

  ghost predicate FullyRelocated(modules: seq<ModuleData>) {
    forall m | 0 <= m < |modules| :: ModuleRelocated(modules, m)
  }

  lemma {:induction false} StaysRelocated(before: seq<ModuleData>, after: seq<ModuleData>, m: nat)
    requires SameButRelocations(before, after) && m < |before| && before[m] == after[m]
    requires ModuleRelocated(before, m)
    ensures ModuleRelocated(after, m)
  {
    forall j | 0 <= j < |after[m].functions| && after[m].functions[j].flags.External?
      ensures HoldsResolution(after, m, j)
    {
      assert HoldsResolution(before, m, j);
      var k: nat, l: nat :| IsResolution(before, m, before[m].functions[j].name, k, l)
           && before[m].relocations[j] == ModuleFunction(k, l);
      assert IsResolution(after, m, after[m].functions[j].name, k, l);
    }
  }

  lemma {:induction false} NowRelocated(before: seq<ModuleData>, after: seq<ModuleData>, m: nat)
    requires SameButRelocations(before, after) && m < |before| && RelocationsShaped(before)
    requires forall j | 0 <= j < |before[m].functions| ::
               after[m].relocations[j] == Relocated(before, m, j) && !Missing(before, m, j)
    ensures ModuleRelocated(after, m)
  {
    forall j | 0 <= j < |after[m].functions| && after[m].functions[j].flags.External?
      ensures HoldsResolution(after, m, j)
    {
      assert !Missing(before, m, j) && after[m].relocations[j] == Relocated(before, m, j);
      var (k, l) := ResolveExternal(before, m, j).value;
      assert IsResolution(after, m, after[m].functions[j].name, k, l);
    }
  }

  lemma {:induction false} SameMissing(a: seq<ModuleData>, b: seq<ModuleData>, m: nat)
    requires SameButRelocations(a, b) && m < |a|
    ensures forall j | 0 <= j < |b[m].functions| :: Missing(b, m, j) <==> Missing(a, m, j)
  {
    forall j | 0 <= j < |b[m].functions| ensures Missing(b, m, j) <==> Missing(a, m, j) {
      SameResolution(a, b, m, a[m].functions[j].name, |a|);
    }
  }

  // ----- What the final pass guarantees

  /** After a successful load of at most 65536 modules, whatever the provisional passes had stored:
      a call to an external function goes to the function that its packed word projects to, which has
      the same name, is not external, is in another module, and is the resolution of the name. */
  lemma {:induction false} ExternalsGoToTheirResolution(modules: seq<ModuleData>, m: nat, g: nat)
    requires FullyRelocated(modules) && |modules| <= TWO16
    requires forall k | 0 <= k < |modules| :: |modules[k].functions| <= TWO32
    requires HasFunction(modules, m, g) && modules[m].functions[g].flags.External?
    ensures g < |modules[m].relocations|
    ensures var (k, l) := Target(modules, m, g);
            && IsResolution(modules, m, modules[m].functions[g].name, k, l)
            && k != m && HasFunction(modules, k, l)
            && modules[k].functions[l].name == modules[m].functions[g].name
            && !modules[k].functions[l].flags.External?
  {
    assert ModuleRelocated(modules, m) && HoldsResolution(modules, m, g);
    var k: nat, l: nat :| IsResolution(modules, m, modules[m].functions[g].name, k, l)
           && modules[m].relocations[g] == ModuleFunction(k, l);
    PackingProjectsBack(k, l);
  }

  /** The final pass does not depend on what earlier passes left in the relocation arrays. */
  lemma {:induction false} FinalRelocationIsIndependent(a: seq<ModuleData>, b: seq<ModuleData>)
    requires SameButRelocations(a, b) && FullyRelocated(a) && FullyRelocated(b) && RelocationsShaped(a)
    ensures forall m: nat, g: nat | HasFunction(a, m, g) && a[m].functions[g].flags.External? ::
              a[m].relocations[g] == b[m].relocations[g]
  {
    forall m: nat, g: nat | HasFunction(a, m, g) && a[m].functions[g].flags.External?
      ensures a[m].relocations[g] == b[m].relocations[g]
    {
      var name := a[m].functions[g].name;
      assert ModuleRelocated(a, m) && ModuleRelocated(b, m);
      assert HoldsResolution(a, m, g) && HoldsResolution(b, m, g);
      var k: nat, l: nat :| IsResolution(a, m, name, k, l) && a[m].relocations[g] == ModuleFunction(k, l);
      var k': nat, l': nat :| IsResolution(b, m, name, k', l') && b[m].relocations[g] == ModuleFunction(k', l');
      assert IsResolution(a, m, name, k', l');
      ResolutionIsUnique(a, m, name, k, l, k', l');
    }
  }

  /** Together with square tables it makes the data safe to run on. */
  lemma {:induction false} FullyRelocatedIsWellFormed(modules: seq<ModuleData>)
    requires FullyRelocated(modules) && |modules| <= TWO16
    requires forall k | 0 <= k < |modules| :: WellFormedModule(modules[k]) && |modules[k].functions| <= TWO32
    ensures WellFormed(modules)
  {
    forall m: nat, g: nat | HasFunction(modules, m, g) && modules[m].functions[g].flags.External?
      ensures g < |modules[m].relocations|
      ensures HasFunction(modules, GetModule(modules[m].relocations[g]), GetFunction(modules[m].relocations[g]))
    {
      ExternalsGoToTheirResolution(modules, m, g);
    }
  }

  // ----- What the provisional passes guarantee

  /** A module as the loader hands it over: square tables, and relocations that are still zero. */
  ghost predicate AsLoaded(md: ModuleData) {
    && WellFormedModule(md) && |md.functions| <= TWO32
    && forall j | 0 <= j < |md.relocations| :: md.relocations[j] == 0
  }

  /** What a run needs, and what the next module needs to keep it so: an entry that is not resolved
      holds the pair (0, 0), which names a function because module 0 has one. */
  ghost predicate SafeToRunOn(modules: seq<ModuleData>) {
    && WellFormed(modules) && |modules| <= TWO16
    && (modules != [] ==> |modules[0].functions| > 0)
    && forall m | 0 <= m < |modules| :: |modules[m].functions| <= TWO32
  }

  /** One more module, and the provisional pass over it. */
  function WithNext(modules: seq<ModuleData>, md: ModuleData): seq<ModuleData>
    requires RelocationsShaped(modules) && |md.relocations| == |md.functions|
  {
    var mid := |modules| % TWO16;
    assert (modules + [md])[mid] == if mid < |modules| then modules[mid] else md;
    PassedOver(modules + [md], mid)
  }

  /** Loading one more module keeps the tables safe. */
  lemma {:induction false} NextModuleIsSafe(modules: seq<ModuleData>, md: ModuleData)
    requires SafeToRunOn(modules) && AsLoaded(md) && |modules| < TWO16 && (modules == [] ==> |md.functions| > 0)
    ensures SafeToRunOn(WithNext(modules, md))
  {
    var after := WithNext(modules, md);
    NextIsWellFormed(modules, md);
    forall m: nat, g: nat | HasFunction(after, m, g) && after[m].functions[g].flags.External?
      ensures RelocationInRange(after, m, g)
    {
      if m < |modules| {
        EarlierRelocationIsInRange(modules, after, m, g);
      } else {
        NextRelocationIsInRange(modules, md, g);
      }
    }
  }

  predicate RelocationInRange(modules: seq<ModuleData>, m: nat, g: nat)
    requires m < |modules|
  {
    && g < |modules[m].relocations|
    && HasFunction(modules, GetModule(modules[m].relocations[g]), GetFunction(modules[m].relocations[g]))
  }

  lemma {:induction false} NextIsWellFormed(modules: seq<ModuleData>, md: ModuleData)
    requires SafeToRunOn(modules) && AsLoaded(md) && |modules| < TWO16
    ensures var after := WithNext(modules, md);
            && |after| == |modules| + 1 && after[..|modules|] == modules
            && after[|modules|].functions == md.functions
            && forall m | 0 <= m < |after| :: WellFormedModule(after[m]) && |after[m].functions| <= TWO32
  {
    var after := WithNext(modules, md);
    assert forall m | 0 <= m < |modules| :: after[m] == modules[m];
    assert WellFormedModule(after[|modules|]);
  }

  lemma {:induction false} EarlierRelocationIsInRange(modules: seq<ModuleData>, after: seq<ModuleData>, m: nat, g: nat)
    requires WellFormed(modules) && |modules| <= |after| && after[..|modules|] == modules
    requires HasFunction(modules, m, g) && modules[m].functions[g].flags.External?
    ensures RelocationInRange(after, m, g)
  {
    var k := GetModule(modules[m].relocations[g]);
    assert HasFunction(modules, k, GetFunction(modules[m].relocations[g]));
    assert after[m] == after[..|modules|][m] && after[k] == after[..|modules|][k];
  }

  lemma {:induction false} NextRelocationIsInRange(modules: seq<ModuleData>, md: ModuleData, g: nat)
    requires SafeToRunOn(modules) && AsLoaded(md) && |modules| < TWO16 && (modules == [] ==> |md.functions| > 0)
    requires g < |md.functions| && md.functions[g].flags.External?
    ensures RelocationInRange(WithNext(modules, md), |modules|, g)
  {
    var mid, more := |modules|, modules + [md];
    NextKeepsModules(modules, md);
    match ResolveExternal(more, mid, g)
    case None =>
      assert Relocated(more, mid, g) == 0;
    case Some((k, l)) =>
      PackingProjectsBack(k, l);
  }

  lemma {:induction false} PassedOverSame(modules: seq<ModuleData>, mid: nat)
    requires mid < |modules| && RelocationsShaped(modules)
    ensures SameButRelocations(modules, PassedOver(modules, mid)) && RelocationsShaped(PassedOver(modules, mid))
  {
  }

  lemma {:induction false} NextKeepsModules(modules: seq<ModuleData>, md: ModuleData)
    requires RelocationsShaped(modules) && |md.relocations| == |md.functions|
    ensures SameButRelocations(modules + [md], WithNext(modules, md)) && RelocationsShaped(WithNext(modules, md))
  {
    PassedOverSame(modules + [md], |modules| % TWO16);
  }

  lemma {:induction false} SameIsTransitive(a: seq<ModuleData>, b: seq<ModuleData>, c: seq<ModuleData>)
    requires SameButRelocations(a, b) && SameButRelocations(b, c)
    ensures SameButRelocations(a, c)
  {
  }

  /** A successful final pass leaves tables to run on. */
  lemma {:induction false} FinalModulesAreSafe(before: seq<ModuleData>, after: seq<ModuleData>)
    requires SafeToRunOn(before) && SameButRelocations(before, after) && FullyRelocated(after)
    ensures SafeToRunOn(after)
  {
    forall m | 0 <= m < |after| ensures WellFormedModule(after[m]) && |after[m].functions| <= TWO32 {
      assert WellFormedModule(before[m]) && after[m].functions == before[m].functions;
    }
    FullyRelocatedIsWellFormed(after);
  }
}
