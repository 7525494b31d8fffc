/**
 Function identifiers across compilations that share a prefix (IdentifyFunctions, IdentifyFunction,
 AddIdentifiedFunction and writeFunctionIDs of llvm_pass/CFI/CFI.cpp).  Each compilation reads the
 .fctid file, numbers the functions it meets for the first time, and rewrites the file.
 */
module Identification {
  import opened Wrappers
  import opened MonitorTables

  /** A line of the .fctid file.  Internal stands for the name of the file itself. */
  datatype Known = Known(id: nat, flag: Flag)

  /** The file; its order is that of a hash table, and nobody depends on it. */
  type IdFile = map<string, Known>

  /** How a compilation unit speaks of a function: it lists it as a constructor or a destructor, only
      declares it, or defines it. */
  datatype Mention = Constructor | Destructor | Declaration | Definition

  datatype UnitFunction = UnitFunction(name: string, mention: Mention, intrinsic: bool)

  datatype CompilationUnit = CompilationUnit(functions: seq<UnitFunction>, ignored: set<string>)

  predicate Counts(u: CompilationUnit, f: UnitFunction) {
    f.name !in u.ignored && !f.intrinsic
  }

  // ----- Flags

  /** What a mention of a function says of its flag. */
  datatype Role = Settles(flag: Flag) | Declares

  function RoleOf(f: UnitFunction): Role {
    match f.mention
    case Constructor => Settles(Init)
    case Destructor => Settles(Fini)
    case Declaration => if f.name == "main" then Settles(Main) else Declares
    case Definition => if f.name == "main" then Settles(Main) else Settles(Internal)
  }

  /** A declaration keeps what the file knows, unless it knows nothing better than External. */
  function Merge(known: Option<Flag>, role: Role): Flag {
    match role
    case Settles(flag) => flag
    case Declares => if known.Some? && known.value != External then known.value else External
  }

  // ----- Ids

  /** The ids are 0 to n-1, each given to one name. */
  ghost predicate Numbered(ids: map<string, nat>) {
    && (forall a | a in ids :: ids[a] < |ids|)
    && (forall a, b | a in ids && b in ids && ids[a] == ids[b] :: a == b)
    && (forall i: nat | i < |ids| :: HasNumber(ids, i))
  }

  ghost predicate HasNumber(ids: map<string, nat>, i: nat) {
    exists a :: a in ids && ids[a] == i
  }

  function IdsOf(file: IdFile): (ids: map<string, nat>)
    ensures ids.Keys == file.Keys && |ids| == |file|
    ensures forall a | a in file :: ids[a] == file[a].id
  {
    var ids := map a | a in file :: file[a].id;
    assert ids.Keys == file.Keys && |ids| == |ids.Keys| && |file| == |file.Keys|;
    ids
  }

  function NumberName(ids: map<string, nat>, name: string): map<string, nat> {
    if name in ids then ids else ids[name := |ids|]
  }

  /** The known functions once the first n functions of the unit have been identified. */
  function NumberFirst(ids: map<string, nat>, u: CompilationUnit, n: nat): map<string, nat>
    requires n <= |u.functions|
  {
    if n == 0 then ids
    else
      var before := NumberFirst(ids, u, n - 1);
      if Counts(u, u.functions[n - 1]) then NumberName(before, u.functions[n - 1].name) else before
  }

  /** The role of the last mention of each function among the first n. */
  function Roles(u: CompilationUnit, n: nat): map<string, Role>
    requires n <= |u.functions|
  {
    if n == 0 then map[]
    else
      var before, f := Roles(u, n - 1), u.functions[n - 1];
      if Counts(u, f) then before[f.name := RoleOf(f)] else before
  }

  function Lookup(file: IdFile, name: string): Option<Flag> {
    if name in file then Some(file[name].flag) else None
  }

  /** The file that a compilation leaves. */
  function Compiled(file: IdFile, u: CompilationUnit): (after: IdFile)
    ensures after.Keys == NumberFirst(IdsOf(file), u, |u.functions|).Keys
  {
    var ids := NumberFirst(IdsOf(file), u, |u.functions|);
    var roles := Roles(u, |u.functions|);
    NumberedNames(IdsOf(file), u, |u.functions|);
    map name | name in ids ::
      Known(ids[name], if name in roles then Merge(Lookup(file, name), roles[name]) else file[name].flag)
  }

  lemma {:induction false} NumberedNames(ids: map<string, nat>, u: CompilationUnit, n: nat)
    requires n <= |u.functions|
    ensures forall a :: a in NumberFirst(ids, u, n) <==> a in ids || a in Roles(u, n)
    ensures forall a | a in ids :: NumberFirst(ids, u, n)[a] == ids[a]
    decreases n
  {
    if n > 0 {
      NumberedNames(ids, u, n - 1);
    }
  }

  lemma {:induction false} NumberNameKeeps(ids: map<string, nat>, name: string)
    requires Numbered(ids)
    ensures Numbered(NumberName(ids, name))
  {
    if name !in ids {
      var more := ids[name := |ids|];
      assert |more| == |ids| + 1;
      forall i: nat | i < |more| ensures HasNumber(more, i) {
        if i < |ids| {
          assert HasNumber(ids, i);
          var a :| a in ids && ids[a] == i;
          assert a in more && more[a] == i;
        } else {
          assert name in more && more[name] == i;
        }
      }
    }
  }

  lemma {:induction false} NumberFirstKeeps(ids: map<string, nat>, u: CompilationUnit, n: nat)
    requires n <= |u.functions| && Numbered(ids)
    ensures Numbered(NumberFirst(ids, u, n))
    decreases n
  {
    if n > 0 {
      NumberFirstKeeps(ids, u, n - 1);
      NumberNameKeeps(NumberFirst(ids, u, n - 1), u.functions[n - 1].name);
    }
  }

  // ----- The pass

  /** One more than the greatest id, or 0. */
  ghost predicate IsPastLast(ids: map<string, nat>, counter: nat) {
    (forall a | a in ids :: ids[a] < counter) && (counter > 0 ==> HasNumber(ids, counter - 1))
  }

  lemma {:induction false} AddPastLast(ids: map<string, nat>, counter: nat, name: string, id: nat)
    requires IsPastLast(ids, counter) && name !in ids
    ensures IsPastLast(ids[name := id], if counter <= id then id + 1 else counter)
  {
    var more := ids[name := id];
    if counter <= id {
      assert name in more && more[name] == id;
    } else {
      var a :| a in ids && ids[a] == counter - 1;
      assert a in more && more[a] == counter - 1;
    }
  }

  lemma {:induction false} PastLastIsCount(ids: map<string, nat>, counter: nat)
    requires Numbered(ids) && IsPastLast(ids, counter)
    ensures counter == |ids|
  {
    if |ids| > 0 {
      assert HasNumber(ids, |ids| - 1);
    }
  }

  /** The line that the pass writes for a function it has met. */
  function Line(file: IdFile, name: string, id: nat, role: Role): Known {
    Known(id, Merge(Lookup(file, name), role))
  }

  lemma {:induction false} AllRead(file: IdFile, ids: map<string, nat>)
    requires forall a :: a in ids <==> a in file
    requires forall a | a in ids :: ids[a] == file[a].id
    ensures ids == IdsOf(file)
  {
  }

  class Pass {
    var identified: map<string, nat>
    var functionMap: map<string, Role>
    var counter: nat

    constructor ()
      ensures identified == map[] && functionMap == map[] && counter == 0
    {
      identified, functionMap, counter := map[], map[], 0;
    }

    method AddIdentifiedFunction(name: string, id: nat)
      requires name !in identified
      modifies this`identified, this`counter
      ensures identified == old(identified)[name := id]
      ensures counter == if old(counter) <= id then id + 1 else old(counter)
    {
      identified := identified[name := id];
      if counter <= id {
        counter := id + 1;
      }
    }

    method IdentifyFunction(name: string) returns (id: nat)
      requires counter == |identified|
      modifies this`identified, this`counter
      ensures identified == NumberName(old(identified), name) && counter == |identified|
      ensures id == identified[name]
    {
      if name in identified {
        id := identified[name];
      } else {
        id := counter;
        counter := counter + 1;
        identified := identified[name := id];
      }
    }

    /** The counter read back from the file is the number of functions in it. */
    method ReadFile(file: IdFile)
      requires identified == map[] && counter == 0 && Numbered(IdsOf(file))
      modifies this`identified, this`counter
      ensures identified == IdsOf(file) && counter == |identified|
    {
      var names := file.Keys;
      while names != {}
        invariant forall a | a in names :: a in file
        invariant forall a :: a in identified <==> a in file && a !in names
        invariant forall a | a in identified :: identified[a] == file[a].id
        invariant IsPastLast(identified, counter)
        decreases |names|
      {
        var name :| name in names;
        names := names - {name};
        AddPastLast(identified, counter, name, file[name].id);
        AddIdentifiedFunction(name, file[name].id);
      }
      AllRead(file, identified);
      PastLastIsCount(identified, counter);
    }

    method IdentifyFunctions(file: IdFile, u: CompilationUnit)
      requires identified == map[] && functionMap == map[] && counter == 0 && Numbered(IdsOf(file))
      modifies this
      ensures identified == NumberFirst(IdsOf(file), u, |u.functions|)
      ensures functionMap == Roles(u, |u.functions|)
    {
      ReadFile(file);
      for k := 0 to |u.functions|
        invariant identified == NumberFirst(IdsOf(file), u, k) && counter == |identified|
        invariant functionMap == Roles(u, k)
      {
        var f := u.functions[k];
        if f.name !in u.ignored && !f.intrinsic {
          var id := IdentifyFunction(f.name);
          functionMap := functionMap[f.name := RoleOf(f)];
        }
      }
    }

    /** The first loop of writeFunctionIDs.  Its assertion that ids have not changed holds, and its
        branch for ignored functions is dead, because ignored functions have not been identified. */
    method WriteMentioned(file: IdFile) returns (after: IdFile)
      requires functionMap.Keys <= identified.Keys
      requires forall a | a in file && a in functionMap :: identified[a] == file[a].id
      ensures after.Keys == functionMap.Keys
      ensures forall a | a in after :: after[a] == Line(file, a, identified[a], functionMap[a])
    {
      after := map[];
      var names := functionMap.Keys;
      while names != {}
        invariant names <= functionMap.Keys && after.Keys == functionMap.Keys - names
        invariant forall a | a in after :: after[a] == Line(file, a, identified[a], functionMap[a])
        decreases |names|
      {
        var name :| name in names;
        names := names - {name};
        assert name in file ==> file[name].id == identified[name];
        var flag := FlagToWrite(file, name, functionMap[name]);
        after := after[name := Known(identified[name], flag)];
      }
    }

    method FlagToWrite(file: IdFile, name: string, role: Role) returns (flag: Flag)
      ensures flag == Merge(Lookup(file, name), role)
    {
      match role {
        case Settles(settled) => flag := settled;
        case Declares =>
          if name in file && file[name].flag != External {
            // the old file knows more
            flag := file[name].flag;
          } else {
            flag := External;
          }
      }
    }

    /** The second loop adds the lines about functions that this unit does not mention. */
    method WriteFunctionIds(file: IdFile) returns (after: IdFile)
      requires functionMap.Keys <= identified.Keys
      requires forall a | a in file && a in functionMap :: identified[a] == file[a].id
      ensures after.Keys == file.Keys + functionMap.Keys
      ensures forall a | a in functionMap :: after[a] == Line(file, a, identified[a], functionMap[a])
      ensures forall a | a in file && a !in functionMap :: after[a] == file[a]
    {
      var mentioned := WriteMentioned(file);
      after := KeepOthers(file, mentioned);
    }

    /** The lines of the old file that the unit does not mention are kept. */
    method KeepOthers(file: IdFile, mentioned: IdFile) returns (after: IdFile)
      requires mentioned.Keys == functionMap.Keys
      ensures after.Keys == file.Keys + mentioned.Keys
      ensures forall a | a in mentioned :: after[a] == mentioned[a]
      ensures forall a | a in file && a !in mentioned :: after[a] == file[a]
    {
      after := mentioned;
      var others := file.Keys;
      while others != {}
        invariant forall a | a in others :: a in file
        invariant forall a :: a in after <==> a in functionMap || (a in file && a !in others)
        invariant forall a | a in functionMap :: after[a] == mentioned[a]
        invariant forall a | a in file && a !in others && a !in functionMap :: after[a] == file[a]
        decreases |others|
      {
        var name :| name in others;
        others := others - {name};
        if name !in functionMap {
          after := after[name := file[name]];
        }
      }
    }
  }

  /** One run of the pass. */
  method Compile(file: IdFile, u: CompilationUnit) returns (after: IdFile, identified: map<string, nat>)
    requires Numbered(IdsOf(file))
    ensures after == Compiled(file, u)
    ensures identified == NumberFirst(IdsOf(file), u, |u.functions|)
  {
    var pass := new Pass();
    pass.IdentifyFunctions(file, u);
    NumberedNames(IdsOf(file), u, |u.functions|);
    after := pass.WriteFunctionIds(file);
    identified := pass.identified;
    WrittenIsCompiled(file, u, after);
  }

  lemma {:induction false} WrittenIsCompiled(file: IdFile, u: CompilationUnit, after: IdFile)
    requires var ids, roles := NumberFirst(IdsOf(file), u, |u.functions|), Roles(u, |u.functions|);
             && roles.Keys <= ids.Keys
             && after.Keys == file.Keys + roles.Keys
             && (forall a | a in roles :: after[a] == Line(file, a, ids[a], roles[a]))
             && (forall a | a in file && a !in roles :: after[a] == file[a])
    ensures after == Compiled(file, u)
  {
    NumberedNames(IdsOf(file), u, |u.functions|);
    LinesOfAll(file, NumberFirst(IdsOf(file), u, |u.functions|), Roles(u, |u.functions|), after);
  }

  lemma {:induction false} LinesOfAll(file: IdFile, ids: map<string, nat>, roles: map<string, Role>, after: IdFile)
    requires ids.Keys == file.Keys + roles.Keys == after.Keys
    requires forall a | a in file :: ids[a] == file[a].id
    requires forall a | a in roles :: after[a] == Line(file, a, ids[a], roles[a])
    requires forall a | a in file && a !in roles :: after[a] == file[a]
    ensures forall a | a in ids :: a in roles || a in file
    ensures after == map name | name in ids ::
                       Known(ids[name],
                             if name in roles then Merge(Lookup(file, name), roles[name]) else file[name].flag)
  {
  }

  // ----- Any number of compilations

  function CompiledAll(file: IdFile, units: seq<CompilationUnit>): IdFile
    decreases |units|
  {
    if units == [] then file else CompiledAll(Compiled(file, units[0]), units[1..])
  }

  lemma {:induction false} CompilationKeepsIds(file: IdFile, u: CompilationUnit)
    requires Numbered(IdsOf(file))
    ensures Numbered(IdsOf(Compiled(file, u)))
    ensures IdsOf(Compiled(file, u)) == NumberFirst(IdsOf(file), u, |u.functions|)
    ensures forall a | a in file :: a in Compiled(file, u) && Compiled(file, u)[a].id == file[a].id
  {
    var ids := NumberFirst(IdsOf(file), u, |u.functions|);
    NumberFirstKeeps(IdsOf(file), u, |u.functions|);
    NumberedNames(IdsOf(file), u, |u.functions|);
    SameIds(Compiled(file, u), ids);
  }

  lemma {:induction false} SameIds(file: IdFile, ids: map<string, nat>)
    requires file.Keys == ids.Keys && forall a | a in file :: file[a].id == ids[a]
    ensures IdsOf(file) == ids
  {
  }

  /** Over any sequence of compilations the ids stay exactly 0 to n-1, one per name, and the id of a
      known name never changes. */
  lemma {:induction false} IdsAreStable(file: IdFile, units: seq<CompilationUnit>)
    requires Numbered(IdsOf(file))
    ensures Numbered(IdsOf(CompiledAll(file, units)))
    ensures forall a | a in file :: a in CompiledAll(file, units) && CompiledAll(file, units)[a].id == file[a].id
    decreases |units|
  {
    if units != [] {
      CompilationKeepsIds(file, units[0]);
      IdsAreStable(Compiled(file, units[0]), units[1..]);
    }
  }

  /** Whatever the compilations, every name that the transition table of compilation k can mention has
      the same id in the final file, and that id is below the number of functions the loader is told. */
  lemma {:induction false} TransitionIdsAreKnown(file: IdFile, units: seq<CompilationUnit>, k: nat, name: string)
    requires Numbered(IdsOf(file)) && k < |units|
    requires var identified := NumberFirst(IdsOf(CompiledAll(file, units[..k])), units[k], |units[k].functions|);
             name in identified
    ensures var identified := NumberFirst(IdsOf(CompiledAll(file, units[..k])), units[k], |units[k].functions|);
            var final := CompiledAll(file, units);
            && name in final && final[name].id == identified[name] < |final|
    decreases k
  {
    if k == 0 {
      assert units[..0] == [];
      CompilationKeepsIds(file, units[0]);
      IdsAreStable(Compiled(file, units[0]), units[1..]);
      var final := CompiledAll(file, units);
      assert IdsOf(final)[name] < |IdsOf(final)|;
    } else {
      CompilationKeepsIds(file, units[0]);
      assert units[..k][0] == units[0] && units[..k][1..] == units[1..][..k - 1];
      TransitionIdsAreKnown(Compiled(file, units[0]), units[1..], k - 1, name);
    }
  }

  // ----- The final flag

  /** The flag after a list of mentions, oldest first. */
  function FinalFlag(known: Option<Flag>, roles: seq<Role>): Option<Flag>
    decreases |roles|
  {
    if roles == [] then known else FinalFlag(Some(Merge(known, roles[0])), roles[1..])
  }

  /** The mentions of a name, one per compilation that has one. */
  function RolesOver(units: seq<CompilationUnit>, name: string): seq<Role>
    decreases |units|
  {
    if units == [] then [] else RolesIn(units[0], name) + RolesOver(units[1..], name)
  }

  function RolesIn(u: CompilationUnit, name: string): seq<Role> {
    var roles := Roles(u, |u.functions|);
    if name in roles then [roles[name]] else []
  }

  /** The flag left in the file depends on nothing but the mentions, in the order of the compilations. */
  lemma {:induction false} FileFlagIsFinalFlag(file: IdFile, units: seq<CompilationUnit>, name: string)
    ensures Lookup(CompiledAll(file, units), name) == FinalFlag(Lookup(file, name), RolesOver(units, name))
    decreases |units|
  {
    if units != [] {
      var u := units[0];
      var roles := Roles(u, |u.functions|);
      NumberedNames(IdsOf(file), u, |u.functions|);
      var next := Compiled(file, u);
      FileFlagIsFinalFlag(next, units[1..], name);
      if name in roles {
        assert RolesOver(units, name)[1..] == RolesOver(units[1..], name);
        assert Lookup(next, name) == Some(Merge(Lookup(file, name), roles[name]));
      } else {
        assert RolesOver(units, name) == RolesOver(units[1..], name);
        assert Lookup(next, name) == Lookup(file, name);
      }
    }
  }

  // ----- The flag after one compilation

  predicate DistinctMentions(u: CompilationUnit) {
    forall i, j | 0 <= i < j < |u.functions| :: u.functions[i].name != u.functions[j].name
  }

  lemma {:induction false} OnlyRole(u: CompilationUnit, n: nat, i: nat)
    requires DistinctMentions(u) && i < n <= |u.functions|
    requires u.functions[i].name !in u.ignored && !u.functions[i].intrinsic
    ensures u.functions[i].name in Roles(u, n) && Roles(u, n)[u.functions[i].name] == RoleOf(u.functions[i])
    decreases n
  {
    if i < n - 1 {
      OnlyRole(u, n - 1, i);
    }
  }

  /** A constructor ends Init, a destructor Fini, main Main, any other definition Internal; a declaration
      keeps what the file says, and is External if the file says nothing. */
  lemma {:induction false} FlagAfterUnit(file: IdFile, u: CompilationUnit, i: nat)
    requires DistinctMentions(u) && i < |u.functions|
    requires u.functions[i].name !in u.ignored && !u.functions[i].intrinsic
    ensures var name, after := u.functions[i].name, Compiled(file, u);
            && name in after && (name in file ==> after[name].id == file[name].id)
            && match u.functions[i].mention
               case Constructor => after[name].flag == Init
               case Destructor => after[name].flag == Fini
               case Definition => after[name].flag == if name == "main" then Main else Internal
               case Declaration =>
                 after[name].flag ==
                 if name == "main" then Main else if name in file then file[name].flag else External
  {
    OnlyRole(u, |u.functions|, i);
    NumberedNames(IdsOf(file), u, |u.functions|);
  }

  /** A unit changes nothing about a function that it does not mention, or that it ignores. */
  lemma {:induction false} OthersStay(file: IdFile, u: CompilationUnit, name: string)
    requires forall i | 0 <= i < |u.functions| && u.functions[i].name == name ::
               name in u.ignored || u.functions[i].intrinsic
    ensures name in Compiled(file, u) <==> name in file
    ensures name in file ==> Compiled(file, u)[name] == file[name]
  {
    NoRole(u, |u.functions|, name);
    NumberedNames(IdsOf(file), u, |u.functions|);
  }

  lemma {:induction false} NoRole(u: CompilationUnit, n: nat, name: string)
    requires n <= |u.functions|
    requires forall i | 0 <= i < n && u.functions[i].name == name :: name in u.ignored || u.functions[i].intrinsic
    ensures name !in Roles(u, n)
    decreases n
  {
    if n > 0 {
      NoRole(u, n - 1, name);
    }
  }

  /** Settled roles never settle on External. */
  predicate Proper(roles: seq<Role>) {
    forall k | 0 <= k < |roles| :: roles[k] != Settles(External)
  }

  lemma {:induction false} NeverBackToExternal(known: Option<Flag>, roles: seq<Role>)
    requires Proper(roles) && known.Some? && known.value != External
    ensures FinalFlag(known, roles).Some? && FinalFlag(known, roles).value != External
    decreases |roles|
  {
    if roles != [] {
      NeverBackToExternal(Some(Merge(known, roles[0])), roles[1..]);
    }
  }

  lemma {:induction false} RolesAreProper(units: seq<CompilationUnit>, name: string)
    ensures Proper(RolesOver(units, name))
    decreases |units|
  {
    if units != [] {
      RoleIsProper(units[0], |units[0].functions|, name);
      RolesAreProper(units[1..], name);
    }
  }

  lemma {:induction false} RoleIsProper(u: CompilationUnit, n: nat, name: string)
    requires n <= |u.functions|
    ensures name in Roles(u, n) ==> Roles(u, n)[name] != Settles(External)
    decreases n
  {
    if n > 0 {
      RoleIsProper(u, n - 1, name);
    }
  }

  /** A flag that has left External never returns to it, whatever is compiled afterwards. */
  lemma {:induction false} SettledFlagStaysSettled(file: IdFile, units: seq<CompilationUnit>, name: string)
    requires name in file && file[name].flag != External
    ensures name in CompiledAll(file, units) && CompiledAll(file, units)[name].flag != External
  {
    FileFlagIsFinalFlag(file, units, name);
    RolesAreProper(units, name);
    NeverBackToExternal(Lookup(file, name), RolesOver(units, name));
  }

  /** All the mentions that settle the flag agree. */
  predicate Agree(roles: seq<Role>) {
    forall i, j | 0 <= i < |roles| && 0 <= j < |roles| && roles[i].Settles? && roles[j].Settles? :: roles[i] == roles[j]
  }

  lemma {:induction false} LastOneDecides(known: Option<Flag>, roles: seq<Role>, role: Role)
    ensures FinalFlag(known, roles + [role]) == Some(Merge(FinalFlag(known, roles), role))
    decreases |roles|
  {
    if roles == [] {
      assert roles + [role] == [role];
    } else {
      assert (roles + [role])[1..] == roles[1..] + [role];
      LastOneDecides(Some(Merge(known, roles[0])), roles[1..], role);
    }
  }

  /** What agreeing mentions come to. */
  lemma {:induction false} AgreedFlag(roles: seq<Role>)
    requires Agree(roles) && Proper(roles)
    ensures roles == [] ==> FinalFlag(None, roles) == None
    ensures roles != [] ==> FinalFlag(None, roles).Some?
    ensures forall k | 0 <= k < |roles| && roles[k].Settles? :: FinalFlag(None, roles) == Some(roles[k].flag)
    ensures roles != [] && (forall k | 0 <= k < |roles| :: roles[k].Declares?) ==>
              FinalFlag(None, roles) == Some(External)
    decreases |roles|
  {
    if roles != [] {
      var n := |roles| - 1;
      var init := roles[..n];
      assert roles == init + [roles[n]];
      assert forall k | 0 <= k < n :: init[k] == roles[k];
      AgreedFlag(init);
      LastOneDecides(None, init, roles[n]);
    }
  }

  lemma {:induction false} SettledIsNotExternal(known: Option<Flag>, roles: seq<Role>, k: nat)
    requires Proper(roles) && k < |roles| && roles[k].Settles?
    ensures FinalFlag(known, roles).Some? && FinalFlag(known, roles).value != External
    decreases |roles|
  {
    var next := Some(Merge(known, roles[0]));
    if k == 0 {
      NeverBackToExternal(next, roles[1..]);
    } else {
      SettledIsNotExternal(next, roles[1..], k - 1);
    }
  }

  /** A name that has been mentioned ends External if and only if no mention settles its flag. */
  lemma {:induction false} ExternalIfAllDeclare(roles: seq<Role>)
    requires Proper(roles)
    ensures FinalFlag(None, roles) == Some(External) <==>
            roles != [] && forall k | 0 <= k < |roles| :: roles[k].Declares?
  {
    if k :| 0 <= k < |roles| && roles[k].Settles? {
      SettledIsNotExternal(None, roles, k);
    } else {
      AgreedFlag(roles);
    }
  }

  ghost predicate OrderIndependent(roles: seq<Role>) {
    forall order | multiset(order) == multiset(roles) :: FinalFlag(None, order) == FinalFlag(None, roles)
  }

  lemma {:induction false} SameMembers(a: seq<Role>, b: seq<Role>)
    requires multiset(a) == multiset(b)
    ensures forall k | 0 <= k < |a| :: a[k] in b
    ensures |a| == |b|
  {
    forall k | 0 <= k < |a| ensures a[k] in b {
      assert a[k] in multiset(a);
      assert a[k] in multiset(b);
    }
    assert |multiset(a)| == |a| && |multiset(b)| == |b|;
  }

  lemma {:induction false} AgreedOrdersAgree(roles: seq<Role>, order: seq<Role>)
    requires Proper(roles) && Agree(roles) && multiset(order) == multiset(roles)
    ensures FinalFlag(None, order) == FinalFlag(None, roles)
  {
    SameMembers(order, roles);
    SameMembers(roles, order);
    forall i, j | 0 <= i < |order| && 0 <= j < |order| && order[i].Settles? && order[j].Settles?
      ensures order[i] == order[j]
    {
      assert order[i] in roles && order[j] in roles;
    }
    assert Proper(order) by {
      forall k | 0 <= k < |order| ensures order[k] != Settles(External) {
        assert order[k] in roles;
      }
    }
    AgreedFlag(roles);
    AgreedFlag(order);
    if k :| 0 <= k < |order| && order[k].Settles? {
      assert order[k] in roles;
    } else if order != [] {
      forall k | 0 <= k < |roles| ensures roles[k].Declares? {
        assert roles[k] in order;
      }
    }
  }

  /** Compiling the unit of mention i last. */
  function MovedLast(roles: seq<Role>, i: nat): seq<Role>
    requires i < |roles|
  {
    roles[..i] + roles[i + 1..] + [roles[i]]
  }

  lemma {:induction false} MovedLastDecides(roles: seq<Role>, i: nat)
    requires i < |roles| && roles[i].Settles?
    ensures multiset(MovedLast(roles, i)) == multiset(roles)
    ensures FinalFlag(None, MovedLast(roles, i)) == Some(roles[i].flag)
  {
    assert roles == roles[..i] + [roles[i]] + roles[i + 1..];
    LastOneDecides(None, roles[..i] + roles[i + 1..], roles[i]);
  }

  /** The final flag of a name does not depend on the order of the compilations if and only if the
      mentions that settle it agree; in particular when at most one unit defines the name. */
  lemma {:induction false} FlagMergeIsConfluent(roles: seq<Role>)
    requires Proper(roles)
    ensures OrderIndependent(roles) <==> Agree(roles)
  {
    if Agree(roles) {
      forall order | multiset(order) == multiset(roles) ensures FinalFlag(None, order) == FinalFlag(None, roles) {
        AgreedOrdersAgree(roles, order);
      }
    }
    if OrderIndependent(roles) {
      forall i, j | 0 <= i < |roles| && 0 <= j < |roles| && roles[i].Settles? && roles[j].Settles?
        ensures roles[i] == roles[j]
      {
        MovedLastDecides(roles, i);
        MovedLastDecides(roles, j);
      }
    }
  }

  // ----- Permuted compilations

  lemma {:induction false} RolesAppend(a: seq<CompilationUnit>, b: seq<CompilationUnit>, name: string)
    ensures RolesOver(a + b, name) == RolesOver(a, name) + RolesOver(b, name)
    decreases |a|
  {
    if a == [] {
      assert a + b == b;
    } else {
      assert (a + b)[1..] == a[1..] + b;
      RolesAppend(a[1..], b, name);
      Regroup(RolesIn(a[0], name), RolesOver(a[1..], name), RolesOver(b, name));
    }
  }

  lemma {:induction false} Regroup(a: seq<Role>, b: seq<Role>, c: seq<Role>)
    ensures a + (b + c) == (a + b) + c
  {
  }

  /** s without its element at position k. */
  function Without<T>(s: seq<T>, k: nat): seq<T>
    requires k < |s|
  {
    s[..k] + s[k + 1..]
  }

  lemma {:induction false} TakenOut<T>(s: seq<T>, k: nat)
    requires k < |s|
    ensures multiset(s) == multiset{s[k]} + multiset(Without(s, k))
  {
    assert s == s[..k] + [s[k]] + s[k + 1..];
  }

  lemma {:induction false} Cancelled<T>(x: T, a: multiset<T>, b: multiset<T>)
    requires multiset{x} + a == multiset{x} + b
    ensures a == b
  {
    assert (multiset{x} + a) - multiset{x} == a && (multiset{x} + b) - multiset{x} == b;
  }

  /** Where the first element of a is in b. */
  lemma {:induction false} PlaceOf<T>(a: seq<T>, b: seq<T>) returns (k: nat)
    requires multiset(a) == multiset(b) && a != []
    ensures k < |b| && b[k] == a[0]
    ensures Without(a, 0) == a[1..] && multiset(a[1..]) == multiset(Without(b, k))
  {
    assert a[0] in multiset(b);
    k :| 0 <= k < |b| && b[k] == a[0];
    assert Without(a, 0) == a[1..];
    TakenOut(a, 0);
    TakenOut(b, k);
    Cancelled(a[0], multiset(a[1..]), multiset(Without(b, k)));
  }

  lemma {:induction false} WithoutOne(b: seq<CompilationUnit>, k: nat, name: string)
    requires k < |b|
    ensures multiset(b) == multiset{b[k]} + multiset(Without(b, k))
    ensures multiset(RolesOver(b, name)) == multiset(RolesOver([b[k]], name)) + multiset(RolesOver(Without(b, k), name))
  {
    TakenOut(b, k);
    assert b == b[..k] + [b[k]] + b[k + 1..];
    RolesAppend(b[..k] + [b[k]], b[k + 1..], name);
    RolesAppend(b[..k], [b[k]], name);
    RolesAppend(b[..k], b[k + 1..], name);
  }

  /** The same compilations in another order make the same mentions in another order. */
  lemma {:induction false} PermutedRoles(a: seq<CompilationUnit>, b: seq<CompilationUnit>, name: string)
    requires multiset(a) == multiset(b)
    ensures multiset(RolesOver(a, name)) == multiset(RolesOver(b, name))
    decreases |a|
  {
    if a == [] {
      assert |multiset(b)| == 0 && b == [];
    } else {
      var k := PlaceOf(a, b);
      PermutedRoles(a[1..], Without(b, k), name);
      WithoutOne(a, 0, name);
      WithoutOne(b, k, name);
    }
  }

  /** Whatever the order of the compilations, the file ends with the same flag for the name. */
  ghost predicate SameInEveryOrder(units: seq<CompilationUnit>, name: string) {
    forall order | multiset(order) == multiset(units) ::
      Lookup(CompiledAll(map[], order), name) == Lookup(CompiledAll(map[], units), name)
  }

  /** The unit of the given mention is compiled last, and so decides. */
  lemma {:induction false} CompiledLastDecides(units: seq<CompilationUnit>, name: string, i: nat)
    returns (order: seq<CompilationUnit>)
    requires i < |RolesOver(units, name)| && RolesOver(units, name)[i].Settles?
    ensures multiset(order) == multiset(units)
    ensures Lookup(CompiledAll(map[], order), name) == Some(RolesOver(units, name)[i].flag)
  {
    var k := UnitOfRole(units, name, i);
    var u := units[k];
    var role := Roles(u, |u.functions|)[name];
    order := Without(units, k) + [u];
    WithoutOne(units, k, name);
    assert multiset(order) == multiset(Without(units, k)) + multiset{u};
    RolesAppend(Without(units, k), [u], name);
    OneUnit(u, name);
    FileFlagIsFinalFlag(map[], order, name);
    LastOneDecides(None, RolesOver(Without(units, k), name), role);
  }

  lemma {:induction false} OneUnit(u: CompilationUnit, name: string)
    ensures RolesOver([u], name) == RolesIn(u, name)
  {
    assert [u][1..] == [];
  }

  /** Where the mention of unit r is among all mentions. */
  lemma {:induction false} PlaceOfRole(units: seq<CompilationUnit>, r: nat, name: string) returns (k: nat)
    requires r < |units| && name in Roles(units[r], |units[r].functions|)
    ensures k < |RolesOver(units, name)|
    ensures RolesOver(units, name)[k] == Roles(units[r], |units[r].functions|)[name]
    decreases |units|
  {
    if r == 0 {
      k := 0;
    } else {
      var later := PlaceOfRole(units[1..], r - 1, name);
      k := |RolesIn(units[0], name)| + later;
    }
  }

  lemma {:induction false} UnitOfRole(units: seq<CompilationUnit>, name: string, i: nat) returns (k: nat)
    requires i < |RolesOver(units, name)|
    ensures k < |units| && name in Roles(units[k], |units[k].functions|)
    ensures Roles(units[k], |units[k].functions|)[name] == RolesOver(units, name)[i]
    decreases |units|
  {
    var here := |RolesIn(units[0], name)|;
    if i < here {
      k := 0;
    } else {
      var later := UnitOfRole(units[1..], name, i - here);
      k := later + 1;
    }
  }

  /** From the first compilation of a prefix on: a name ends with the same flag in every order of the
      compilations if and only if the mentions that settle its flag agree; in particular if at most
      one unit defines it. */
  lemma {:induction false} CompilationOrderIsIrrelevant(units: seq<CompilationUnit>, name: string)
    ensures SameInEveryOrder(units, name) <==> Agree(RolesOver(units, name))
  {
    var roles := RolesOver(units, name);
    RolesAreProper(units, name);
    FileFlagIsFinalFlag(map[], units, name);
    if Agree(roles) {
      forall order | multiset(order) == multiset(units)
        ensures Lookup(CompiledAll(map[], order), name) == Lookup(CompiledAll(map[], units), name)
      {
        PermutedRoles(order, units, name);
        AgreedOrdersAgree(roles, RolesOver(order, name));
        FileFlagIsFinalFlag(map[], order, name);
      }
    }
    if SameInEveryOrder(units, name) {
      forall i, j | 0 <= i < |roles| && 0 <= j < |roles| && roles[i].Settles? && roles[j].Settles?
        ensures roles[i] == roles[j]
      {
        var iLast := CompiledLastDecides(units, name, i);
        var jLast := CompiledLastDecides(units, name, j);
      }
    }
  }
}
