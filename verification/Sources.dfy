/**
 A binary as it is linked from source modules compiled one after the other: the ids and the flags that the
 pass has left in the .fctid file, and the bodies of the functions.  What the other modules require of a
 binary and of its flags holds of it.
 */
module Sources {
  import opened Wrappers
  import opened MonitorTables
  import opened Injector
  import opened Execution
  import opened Identification
  import opened PassTables
  import opened Linked

  datatype Listing = AsConstructor | AsDestructor | Unlisted

  /** A function of a source module; a declaration has no block.  traced: compiled at the level of blocks
      and not annotated to ignore them. */
  datatype SourceFunction = SourceFunction(
    name: string, listing: Listing, intrinsic: bool, traced: bool, blocks: seq<Block>)

  type Source = seq<SourceFunction>

  function MentionOf(f: SourceFunction): Mention {
    match f.listing
    case AsConstructor => Constructor
    case AsDestructor => Destructor
    case Unlisted => if f.blocks == [] then Declaration else Definition
  }

  function Mentioned(f: SourceFunction): UnitFunction {
    UnitFunction(f.name, MentionOf(f), f.intrinsic)
  }

  /** What the pass is told of a source module, and which names it ignores. */
  function UnitOf(s: Source, ignored: set<string>): CompilationUnit {
    CompilationUnit(seq(|s|, i requires 0 <= i < |s| => Mentioned(s[i])), ignored)
  }

  function UnitsOf(sources: seq<Source>, ignored: set<string>): seq<CompilationUnit> {
    seq(|sources|, r requires 0 <= r < |sources| => UnitOf(sources[r], ignored))
  }

  /** The .fctid file after all compilations. */
  function FileAfter(sources: seq<Source>, ignored: set<string>): IdFile {
    CompiledAll(map[], UnitsOf(sources, ignored))
  }

  /** Source r speaks of the function in its place i. */
  predicate Speaks(sources: seq<Source>, ignored: set<string>, r: nat, i: nat, name: string) {
    r < |sources| && i < |sources[r]| && sources[r][i].name == name
    && name !in ignored && !sources[r][i].intrinsic
  }

  // ----- What LLVM guarantees of a module

  predicate DistinctFunctions(s: Source) {
    forall i, j | 0 <= i < j < |s| :: s[i].name != s[j].name
  }

  /** The function called is ignored, or the module has it, and not as an intrinsic. */
  predicate CalleeIsThere(s: Source, ignored: set<string>, callee: string) {
    callee in ignored || exists i | 0 <= i < |s| :: s[i].name == callee && !s[i].intrinsic
  }

  predicate IsBlock(s: Source, ignored: set<string>, blocks: seq<Block>, k: nat)
    requires k < |blocks|
  {
    && (forall i | i in blocks[k].instrs ::
          !Inserted(i) && (i.CallTo? ==> CalleeIsThere(s, ignored, i.callee)))
    && (blocks[k].terminator.Branch? ==> forall t | t in blocks[k].terminator.succs :: 0 < t < |blocks|)
  }

  predicate IsModule(s: Source, ignored: set<string>) {
    && DistinctFunctions(s)
    && forall i | 0 <= i < |s| ::
         forall k | 0 <= k < |s[i].blocks| :: IsBlock(s, ignored, s[i].blocks, k)
  }

  predicate AreModules(sources: seq<Source>, ignored: set<string>) {
    forall r | 0 <= r < |sources| :: IsModule(sources[r], ignored)
  }

  // ----- Roles

  lemma {:induction false} RoleInUnit(s: Source, ignored: set<string>, n: nat, name: string)
    requires n <= |s| && DistinctFunctions(s)
    ensures var u := UnitOf(s, ignored);
            && |u.functions| == |s|
            && (forall i | 0 <= i < n && Speaks([s], ignored, 0, i, name) ::
                  name in Roles(u, n) && Roles(u, n)[name] == RoleOf(Mentioned(s[i])))
            && (name in Roles(u, n) ==> exists i :: 0 <= i < n && Speaks([s], ignored, 0, i, name))
    decreases n
  {
    if n > 0 {
      RoleInUnit(s, ignored, n - 1, name);
      if Speaks([s], ignored, 0, n - 1, name) {
        assert forall i | 0 <= i < n - 1 :: s[i].name != s[n - 1].name;
      }
    }
  }

  /** Source r has spoken of the name in place i, so the name is in the file. */
  lemma {:induction false} SpokenOf(sources: seq<Source>, ignored: set<string>, r: nat, i: nat, name: string)
    requires AreModules(sources, ignored) && Speaks(sources, ignored, r, i, name)
    ensures var u := UnitsOf(sources, ignored)[r];
            name in Roles(u, |u.functions|) && Roles(u, |u.functions|)[name] == RoleOf(Mentioned(sources[r][i]))
    ensures name in FileAfter(sources, ignored)
  {
    var units := UnitsOf(sources, ignored);
    assert IsModule(sources[r], ignored);
    assert Speaks([sources[r]], ignored, 0, i, name);
    RoleInUnit(sources[r], ignored, |sources[r]|, name);
    NothingIsNumbered();
    NumberedNames(IdsOf(CompiledAll(map[], units[..r])), units[r], |units[r].functions|);
    TransitionIdsAreKnown(map[], units, r, name);
  }

  lemma {:induction false} NothingIsNumbered()
    ensures Numbered(IdsOf(map[]))
  {
  }

  /** Somebody has spoken of every name in the file. */
  lemma {:induction false} SpokenBy(sources: seq<Source>, ignored: set<string>, name: string, k: nat)
    returns (r: nat, i: nat)
    requires AreModules(sources, ignored) && k < |RolesOver(UnitsOf(sources, ignored), name)|
    ensures Speaks(sources, ignored, r, i, name)
    ensures RolesOver(UnitsOf(sources, ignored), name)[k] == RoleOf(Mentioned(sources[r][i]))
  {
    var units := UnitsOf(sources, ignored);
    r := UnitOfRole(units, name, k);
    assert IsModule(sources[r], ignored);
    RoleInUnit(sources[r], ignored, |sources[r]|, name);
    i :| 0 <= i < |sources[r]| && Speaks([sources[r]], ignored, 0, i, name);
  }

  lemma {:induction false} FileNames(sources: seq<Source>, ignored: set<string>, name: string)
    returns (r: nat, i: nat)
    requires AreModules(sources, ignored) && name in FileAfter(sources, ignored)
    ensures Speaks(sources, ignored, r, i, name)
  {
    FileFlagIsFinalFlag(map[], UnitsOf(sources, ignored), name);
    r, i := SpokenBy(sources, ignored, name, 0);
  }

  // ----- Flags

  predicate Settled(sources: seq<Source>, ignored: set<string>, name: string) {
    exists r, i | 0 <= r < |sources| && 0 <= i < |sources[r]| ::
      Speaks(sources, ignored, r, i, name) && RoleOf(Mentioned(sources[r][i])).Settles?
  }

  /** A name ends External if and only if no source settles its flag. */
  lemma {:induction false} ExternalIfUnsettled(sources: seq<Source>, ignored: set<string>, name: string)
    requires AreModules(sources, ignored) && name in FileAfter(sources, ignored)
    ensures FileAfter(sources, ignored)[name].flag.External? <==> !Settled(sources, ignored, name)
  {
    var units := UnitsOf(sources, ignored);
    var roles := RolesOver(units, name);
    FileFlagIsFinalFlag(map[], units, name);
    RolesAreProper(units, name);
    ExternalIfAllDeclare(roles);
    if !FileAfter(sources, ignored)[name].flag.External? {
      var k :| 0 <= k < |roles| && roles[k].Settles?;
      var r, i := SpokenBy(sources, ignored, name, k);
    }
    if Settled(sources, ignored, name) {
      var r: nat, i: nat :| r < |sources| && i < |sources[r]| && Speaks(sources, ignored, r, i, name)
        && RoleOf(Mentioned(sources[r][i])).Settles?;
      SpokenOf(sources, ignored, r, i, name);
      var k := PlaceOfRole(units, r, name);
    }
  }

  // ----- The binary

  /** The first body of the name. */
  function BodyIn(s: Source, name: string): (f: Option<SourceFunction>)
    ensures f.Some? ==> f.value in s && f.value.name == name && !f.value.intrinsic && f.value.blocks != []
    ensures f.None? ==> forall g | g in s && g.name == name && !g.intrinsic :: g.blocks == []
  {
    if s == [] then None
    else if s[0].name == name && !s[0].intrinsic && s[0].blocks != [] then Some(s[0])
    else BodyIn(s[1..], name)
  }

  function Body(sources: seq<Source>, name: string): (f: Option<SourceFunction>)
    ensures f.Some? ==>
              && f.value.name == name && !f.value.intrinsic && f.value.blocks != []
              && exists r :: 0 <= r < |sources| && f.value in sources[r]
    ensures f.None? ==> forall r | 0 <= r < |sources| ::
              forall g | g in sources[r] && g.name == name && !g.intrinsic :: g.blocks == []
  {
    if sources == [] then None
    else
      var here := BodyIn(sources[0], name);
      if here.Some? then here
      else
        var later := Body(sources[1..], name);
        assert forall r | 0 < r < |sources| :: sources[r] == sources[1..][r - 1];
        later
  }

  function FuncOf(sources: seq<Source>, ignored: set<string>, name: string): Func
    requires name in FileAfter(sources, ignored)
  {
    var flag := FileAfter(sources, ignored)[name].flag;
    match Body(sources, name)
    case Some(f) => Func(name, flag, f.traced, f.blocks)
    case None => Func(name, flag, false, [])
  }

  /** u is the binary linked from the sources: each name of the file has its id, its flag and its body. */
  ghost predicate IsLinked(u: Unit, sources: seq<Source>, ignored: set<string>) {
    var file := FileAfter(sources, ignored);
    && u.names == Names(IdsOf(file), ignored) && |u.functions| == |file|
    && forall name | name in file ::
         file[name].id < |u.functions| && u.functions[file[name].id] == FuncOf(sources, ignored, name)
  }

  lemma {:induction false} IdsAreNumbered(sources: seq<Source>, ignored: set<string>)
    ensures Numbered(IdsOf(FileAfter(sources, ignored)))
  {
    NothingIsNumbered();
    IdsAreStable(map[], UnitsOf(sources, ignored));
  }

  /** The name of function f. */
  lemma {:induction false} NameOf(u: Unit, sources: seq<Source>, ignored: set<string>, f: nat) returns (name: string)
    requires IsLinked(u, sources, ignored) && f < |u.functions|
    ensures name in FileAfter(sources, ignored) && FileAfter(sources, ignored)[name].id == f
    ensures u.functions[f] == FuncOf(sources, ignored, name) && u.functions[f].name == name
  {
    var file := FileAfter(sources, ignored);
    IdsAreNumbered(sources, ignored);
    assert HasNumber(IdsOf(file), f);
    name :| name in IdsOf(file) && IdsOf(file)[name] == f;
  }

  lemma {:induction false} BlockIsSource(u: Unit, sources: seq<Source>, ignored: set<string>, r: nat,
                                         blocks: seq<Block>, k: nat)
    requires AreModules(sources, ignored) && IsLinked(u, sources, ignored) && r < |sources|
    requires k < |blocks| && IsBlock(sources[r], ignored, blocks, k)
    ensures SourceBlock(u, blocks, k)
  {
    forall i | i in blocks[k].instrs && Monitored(u.names, i) ensures i.callee in u.names.ids {
      var j :| 0 <= j < |sources[r]| && sources[r][j].name == i.callee && !sources[r][j].intrinsic;
      SpokenOf(sources, ignored, r, j, i.callee);
    }
  }

  lemma {:induction false} FunctionIsSource(u: Unit, sources: seq<Source>, ignored: set<string>, f: nat)
    requires AreModules(sources, ignored) && IsLinked(u, sources, ignored) && f < |u.functions|
    ensures u.functions[f].name in u.names.ids && u.names.ids[u.functions[f].name] == f
    ensures u.functions[f].name !in u.names.ignored
    ensures forall k | 0 <= k < |u.functions[f].blocks| :: SourceBlock(u, u.functions[f].blocks, k)
  {
    var name := NameOf(u, sources, ignored, f);
    var r, i := FileNames(sources, ignored, name);
    match Body(sources, name)
    case None =>
    case Some(body) =>
      var r' :| 0 <= r' < |sources| && body in sources[r'];
      assert IsModule(sources[r'], ignored);
      forall k | 0 <= k < |body.blocks| ensures SourceBlock(u, body.blocks, k) {
        assert IsBlock(sources[r'], ignored, body.blocks, k);
        BlockIsSource(u, sources, ignored, r', body.blocks, k);
      }
  }

  /** A linked binary is what the other modules take a binary to be. */
  lemma {:induction false} LinkedIsSource(u: Unit, sources: seq<Source>, ignored: set<string>)
    requires AreModules(sources, ignored) && IsLinked(u, sources, ignored)
    ensures SourceUnit(u)
  {
    forall f | 0 <= f < |u.functions|
      ensures u.functions[f].name in u.names.ids && u.names.ids[u.functions[f].name] == f
      ensures u.functions[f].name !in u.names.ignored
      ensures forall k | 0 <= k < |u.functions[f].blocks| :: SourceBlock(u, u.functions[f].blocks, k)
    {
      FunctionIsSource(u, sources, ignored, f);
    }
  }

  /** The .fctid file of the binary is the one that its compilations leave. */
  lemma {:induction false} FileOfLinked(u: Unit, sources: seq<Source>, ignored: set<string>)
    requires AreModules(sources, ignored) && IsLinked(u, sources, ignored)
    ensures SourceUnit(u) && Pipeline.FileOf(u) == FileAfter(sources, ignored)
  {
    LinkedIsSource(u, sources, ignored);
    SameFile(u, FileAfter(sources, ignored));
  }

  lemma {:induction false} SameFile(u: Unit, file: IdFile)
    requires SourceUnit(u) && u.names.ids == IdsOf(file)
    requires forall name | name in file :: u.functions[file[name].id].flag == file[name].flag
    ensures Pipeline.FileOf(u) == file
  {
    forall name | name in file ensures Pipeline.FileOf(u)[name] == file[name] {
      assert u.names.ids[name] == file[name].id && u.functions[file[name].id].name == name;
    }
  }

  lemma {:induction false} OneMoreCompiled(file: IdFile, units: seq<CompilationUnit>, u: CompilationUnit)
    ensures CompiledAll(file, units + [u]) == Compiled(CompiledAll(file, units), u)
    decreases |units|
  {
    if units == [] {
      assert (units + [u])[1..] == [];
    } else {
      assert (units + [u])[1..] == units[1..] + [u];
      OneMoreCompiled(Compiled(file, units[0]), units[1..], u);
    }
  }

  /** The pass, run on one source module after the other. */
  method CompileSources(sources: seq<Source>, ignored: set<string>) returns (file: IdFile)
    ensures file == FileAfter(sources, ignored) && Numbered(IdsOf(file))
  {
    ghost var units := UnitsOf(sources, ignored);
    file := map[];
    NothingIsNumbered();
    for r := 0 to |sources|
      invariant file == CompiledAll(map[], units[..r]) && Numbered(IdsOf(file))
    {
      assert units[..r + 1] == units[..r] + [units[r]];
      OneMoreCompiled(map[], units[..r], units[r]);
      CompilationKeepsIds(file, units[r]);
      var identified;
      file, identified := Compile(file, UnitOf(sources[r], ignored));
    }
    assert units[..|sources|] == units;
  }

  // ----- The runs of the pass

  /** part lists the functions that the source defines, in some order. */
  ghost predicate IsPart(u: Unit, s: Source, part: seq<nat>) {
    Distinct(part) && forall f: nat :: f in part <==> f < |u.functions| && BodyIn(s, u.functions[f].name).Some?
  }

  ghost predicate AreParts(u: Unit, sources: seq<Source>, parts: seq<seq<nat>>) {
    |parts| == |sources| && forall r | 0 <= r < |parts| :: IsPart(u, sources[r], parts[r])
  }

  /** No name has a body in two sources. */
  ghost predicate OneBody(sources: seq<Source>) {
    forall r, k, name | 0 <= r < k < |sources| && BodyIn(sources[r], name).Some? :: BodyIn(sources[k], name).None?
  }

  predicate HasBody(sources: seq<Source>, name: string) {
    exists r :: 0 <= r < |sources| && BodyIn(sources[r], name).Some?
  }

  lemma {:induction false} PartsListBodies(u: Unit, sources: seq<Source>, parts: seq<seq<nat>>)
    requires AreParts(u, sources, parts) && OneBody(sources)
    ensures Distinct(Flat(parts))
    ensures forall f: nat :: f in Flat(parts) <==> f < |u.functions| && HasBody(sources, u.functions[f].name)
    decreases |parts|
  {
    if parts != [] {
      var n := |parts| - 1;
      var before := sources[..n];
      assert forall r | 0 <= r < n :: before[r] == sources[r] && parts[..n][r] == parts[r];
      PartsListBodies(u, before, parts[..n]);
      assert IsPart(u, sources[n], parts[n]);
      forall f: nat ensures f in Flat(parts) <==> f < |u.functions| && HasBody(sources, u.functions[f].name) {
        OneMoreBody(u, sources, parts, f);
      }
      NoBodyTwice(u, sources, parts);
    }
  }

  lemma {:induction false} OneMoreBody(u: Unit, sources: seq<Source>, parts: seq<seq<nat>>, f: nat)
    requires parts != [] && |parts| == |sources| && IsPart(u, sources[|parts| - 1], parts[|parts| - 1])
    requires var n := |parts| - 1;
             f in Flat(parts[..n]) <==> f < |u.functions| && HasBody(sources[..n], u.functions[f].name)
    ensures f in Flat(parts) <==> f < |u.functions| && HasBody(sources, u.functions[f].name)
  {
    var n := |parts| - 1;
    if f < |u.functions| && HasBody(sources, u.functions[f].name) {
      var r :| 0 <= r < |sources| && BodyIn(sources[r], u.functions[f].name).Some?;
      assert r < n ==> sources[..n][r] == sources[r];
    }
    if f < |u.functions| && HasBody(sources[..n], u.functions[f].name) {
      var r :| 0 <= r < n && BodyIn(sources[..n][r], u.functions[f].name).Some?;
      assert sources[..n][r] == sources[r];
    }
  }

  lemma {:induction false} NoBodyTwice(u: Unit, sources: seq<Source>, parts: seq<seq<nat>>)
    requires parts != [] && |parts| == |sources| && OneBody(sources)
    requires var n := |parts| - 1;
             && IsPart(u, sources[n], parts[n]) && Distinct(Flat(parts[..n]))
             && forall f: nat | f in Flat(parts[..n]) :: f < |u.functions| && HasBody(sources[..n], u.functions[f].name)
    ensures Distinct(Flat(parts))
  {
    var n := |parts| - 1;
    forall f: nat | f in Flat(parts[..n]) ensures f !in parts[n] {
      var r :| 0 <= r < n && BodyIn(sources[..n][r], u.functions[f].name).Some?;
      assert BodyIn(sources[r], u.functions[f].name).Some?;
    }
    DistinctTogether(Flat(parts[..n]), parts[n]);
  }

  lemma {:induction false} DistinctTogether(a: seq<nat>, b: seq<nat>)
    requires Distinct(a) && Distinct(b) && forall f | f in a :: f !in b
    ensures Distinct(a + b)
  {
    forall j, k | 0 <= j < k < |a + b| ensures (a + b)[j] != (a + b)[k] {
      assert j < |a| <= k ==> (a + b)[j] in a && (a + b)[k] in b;
    }
  }

  /** The runs of the pass over the sources are what a build needs: each function that the binary defines
      is compiled in exactly one of them. */
  lemma {:induction false} SourcesAreParts(u: Unit, sources: seq<Source>, ignored: set<string>, parts: seq<seq<nat>>)
    requires AreModules(sources, ignored) && IsLinked(u, sources, ignored)
    requires AreParts(u, sources, parts) && OneBody(sources)
    ensures CompiledIn(u, parts)
  {
    PartsListBodies(u, sources, parts);
    assert AllBelow(Flat(parts), |u.functions|) by {
      forall k | 0 <= k < |Flat(parts)| ensures Flat(parts)[k] < |u.functions| {
        assert Flat(parts)[k] in Flat(parts);
      }
    }
    forall f: nat | f < |u.functions| && u.functions[f].blocks != [] ensures f in Flat(parts) {
      var name := NameOf(u, sources, ignored, f);
      var body := Body(sources, name).value;
      var r :| 0 <= r < |sources| && body in sources[r];
      assert BodyIn(sources[r], name).Some?;
    }
  }

  // ----- Its flags

  /** What a binary has of a name: a defined function is not External, and one that is neither defined
      nor External is main or listed as a constructor or a destructor by a module that declares it. */
  lemma {:induction false} LinkedFlag(u: Unit, sources: seq<Source>, ignored: set<string>, f: nat)
    requires AreModules(sources, ignored) && IsLinked(u, sources, ignored) && f < |u.functions|
    ensures u.functions[f].name == "main" ==> !u.functions[f].flag.External?
    ensures u.functions[f].blocks != [] ==> !u.functions[f].flag.External?
    ensures u.functions[f].blocks == [] && !u.functions[f].flag.External? ==>
              u.functions[f].name == "main" || ListsDeclaration(sources, ignored, u.functions[f].name)
  {
    var name := NameOf(u, sources, ignored, f);
    ExternalIfUnsettled(sources, ignored, name);
    if name == "main" {
      var r, i := FileNames(sources, ignored, name);
    } else if u.functions[f].blocks != [] {
      BodySettles(sources, ignored, name);
    } else if Settled(sources, ignored, name) {
      SettledWithoutBody(sources, ignored, name);
    }
  }

  lemma {:induction false} SettledWithoutBody(sources: seq<Source>, ignored: set<string>, name: string)
    requires Settled(sources, ignored, name) && name != "main" && Body(sources, name).None?
    ensures ListsDeclaration(sources, ignored, name)
  {
    var r: nat, i: nat :| r < |sources| && i < |sources[r]| && Speaks(sources, ignored, r, i, name)
      && RoleOf(Mentioned(sources[r][i])).Settles?;
    assert sources[r][i] in sources[r];
  }

  /** The flag of a function when the sources that settle it agree: that of a constructor, a destructor,
      main, or any other definition. */
  lemma {:induction false} SettledFlag(sources: seq<Source>, ignored: set<string>, r: nat, i: nat, name: string)
    requires AreModules(sources, ignored) && Speaks(sources, ignored, r, i, name)
    requires Agree(RolesOver(UnitsOf(sources, ignored), name))
    requires sources[r][i].listing != Unlisted || sources[r][i].blocks != [] || name == "main"
    ensures name in FileAfter(sources, ignored)
    ensures FileAfter(sources, ignored)[name].flag ==
            match sources[r][i].listing
            case AsConstructor => Init
            case AsDestructor => Fini
            case Unlisted => if name == "main" then Main else Internal
  {
    var units := UnitsOf(sources, ignored);
    SpokenOf(sources, ignored, r, i, name);
    var k := PlaceOfRole(units, r, name);
    FileFlagIsFinalFlag(map[], units, name);
    RolesAreProper(units, name);
    AgreedFlag(RolesOver(units, name));
  }

  predicate ListsDeclaration(sources: seq<Source>, ignored: set<string>, name: string) {
    exists r, i | 0 <= r < |sources| && 0 <= i < |sources[r]| ::
      Speaks(sources, ignored, r, i, name) && sources[r][i].listing != Unlisted && sources[r][i].blocks == []
  }

  lemma {:induction false} BodySettles(sources: seq<Source>, ignored: set<string>, name: string)
    requires AreModules(sources, ignored) && name in FileAfter(sources, ignored) && Body(sources, name).Some?
    ensures Settled(sources, ignored, name)
  {
    var body := Body(sources, name).value;
    var r :| 0 <= r < |sources| && body in sources[r];
    var i :| 0 <= i < |sources[r]| && sources[r][i] == body;
    var r', i' := FileNames(sources, ignored, name);
    assert Speaks(sources, ignored, r, i, name);
  }

  /** How the binaries of a program are made: the sources of each, and the names it ignores. */
  datatype Recipe = Recipe(sources: seq<Source>, ignored: set<string>)

  ghost predicate IsMade(u: Unit, r: Recipe) {
    AreModules(r.sources, r.ignored) && IsLinked(u, r.sources, r.ignored)
  }

  ghost predicate AreMade(p: Program, recipes: seq<Recipe>) {
    |recipes| == |p| && forall m | 0 <= m < |p| :: IsMade(p[m], recipes[m])
  }

  /** Constructors and destructors are listed by modules that define them. */
  predicate ListsDefined(r: Recipe) {
    forall s | s in r.sources :: forall f | f in s && f.listing != Unlisted :: f.blocks != []
  }

  predicate AllListDefined(recipes: seq<Recipe>) {
    forall m | 0 <= m < |recipes| :: ListsDefined(recipes[m])
  }

  /** What a binary made from sources has of its functions. */
  lemma {:induction false} MadeFlag(u: Unit, r: Recipe, f: nat)
    requires IsMade(u, r) && ListsDefined(r) && f < |u.functions|
    ensures u.functions[f].blocks != [] ==> !u.functions[f].flag.External?
    ensures u.functions[f].name == "main" ==> !u.functions[f].flag.External?
    ensures u.functions[f].blocks == [] && !u.functions[f].flag.External? ==> u.functions[f].name == "main"
  {
    var name := u.functions[f].name;
    LinkedFlag(u, r.sources, r.ignored, f);
    ListsNoDeclaration(r, name);
  }

  lemma {:induction false} ListsNoDeclaration(r: Recipe, name: string)
    requires ListsDefined(r)
    ensures !ListsDeclaration(r.sources, r.ignored, name)
  {
    forall k, i | 0 <= k < |r.sources| && 0 <= i < |r.sources[k]|
      ensures r.sources[k][i].listing != Unlisted ==> r.sources[k][i].blocks != []
    {
      assert r.sources[k] in r.sources && r.sources[k][i] in r.sources[k];
    }
  }

  /** The flags of a program made from sources are sound, and the only function that a binary may declare
      under another flag than External is main. */
  lemma {:induction false} MadeProgramIsSound(p: Program, recipes: seq<Recipe>)
    requires AreMade(p, recipes) && AllListDefined(recipes)
    ensures SourceProgram(p) && SoundFlags(p)
    ensures forall m: nat, f: nat | HasFunc(p, m, f) ::
              DefinedOrExternal(p, m, f) <==> Defined(p, m, f) || p[m].functions[f].name != "main"
  {
    forall m | 0 <= m < |p| ensures SourceUnit(p[m]) {
      assert IsMade(p[m], recipes[m]);
      LinkedIsSource(p[m], recipes[m].sources, recipes[m].ignored);
    }
    forall m: nat, f: nat | HasFunc(p, m, f)
      ensures Defined(p, m, f) ==> !p[m].functions[f].flag.External?
      ensures p[m].functions[f].name == "main" ==> !p[m].functions[f].flag.External?
      ensures !Defined(p, m, f) && !p[m].functions[f].flag.External? ==> p[m].functions[f].name == "main"
    {
      assert IsMade(p[m], recipes[m]) && ListsDefined(recipes[m]);
      MadeFlag(p[m], recipes[m], f);
    }
  }
}
