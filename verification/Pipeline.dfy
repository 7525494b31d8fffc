/**
 The whole way of the tables: from the functions of a binary, through the text files of the pass and
 the packets of picon-prelink, to the tables the monitor has loaded.
 */
module Pipeline {
  import opened Wrappers
  import opened MonitorTables
  import opened Bytes
  import opened Packing
  import opened Text
  import opened Prelink
  import opened Loader
  import RoundTrip = LoaderRoundTrip
  import opened Injector
  import opened Execution
  import opened PassTables
  import opened FunctionIds
  import opened PostDominators

  const TWO31: nat := 0x8000_0000

  /** Every number of the tables fits a 32-bit word, a function's id fits the signed int that
      writeCallgraph makes of it, and a function's name is one word of text. */
  predicate FitsWords(u: Unit) {
    && |u.functions| <= TWO31
    && forall f | 0 <= f < |u.functions| ::
         && IsWord(|u.functions[f].blocks|) && IsName(u.functions[f].name) && IsWordText(u.functions[f].name)
         && forall k | 0 <= k < |u.functions[f].blocks| :: IsWord(|Successors(u.functions[f].blocks[k])|)
  }

  // ----- What the loaded tables must say of the functions

  /** The call graph has an edge exactly where a function makes a monitored call, and a row exactly
      for the functions that make one. */
  ghost predicate DescribesCalls(u: Unit, m: Matrix) {
    && SquareMatrix(m, |u.functions|)
    && (forall f: nat | f < |u.functions| :: m[f].Some? <==> exists g: nat :: MakesCall(u, f, g))
    && (forall f: nat, g: nat :: Edge(m, f, g) <==> MakesCall(u, f, g))
  }

  /** The control-flow graph has an edge exactly for each successor of a block; that of a function
      with a single block has none. */
  ghost predicate DescribesJumps(blocks: seq<Block>, m: Matrix) {
    && SquareMatrix(m, |blocks|)
    && (forall b: nat, c: nat :: Edge(m, b, c) <==>
          |blocks| != 1 && b < |blocks| && blocks[b].terminator.Branch? && c in blocks[b].terminator.succs)
  }

  ghost predicate DescribesFunction(func: Func, fd: FunctionData) {
    && fd.name == func.name && fd.flags == func.flag && WellFormedFunction(fd)
    && if func.traced && func.blocks != [] then
         fd.nbBlocks == |func.blocks| && DescribesJumps(func.blocks, fd.controlFlowGraph)
       else
         fd.nbBlocks == 0
  }

  ghost predicate DescribesUnit(u: Unit, md: ModuleData) {
    && |md.functions| == |md.relocations| == |u.functions|
    && DescribesCalls(u, md.callGraph)
    && forall f | 0 <= f < |u.functions| :: DescribesFunction(u.functions[f], md.functions[f])
  }

  // ----- Calls

  lemma {:induction false} CalleesAreBelow(u: Unit, f: nat)
    requires SourceUnit(u)
    ensures forall g | g in Called(u, f) :: g < |u.functions|
    ensures |Called(u, f)| <= |u.functions|
  {
    forall g | g in Called(u, f) ensures g < |u.functions| {
      CalleesMeaning(u.names, u.functions[f].blocks, g);
    }
    FewBelow(Called(u, f), |u.functions|);
  }

  lemma {:induction false} FewBelow(s: set<int>, n: nat)
    requires forall g | g in s :: 0 <= g < n
    ensures |s| <= n
  {
    var all := RoundTrip.Below(n);
    assert s <= all by {
      forall g | g in s ensures g in all {
        var h: nat := g;
        assert h in all;
      }
    }
    assert |all| == |s| + |all - s| by {
      assert all == s + (all - s);
    }
  }

  /** What has been read back from the pass's call table. */
  ghost predicate IsCallDict(u: Unit, dict: Transitions) {
    && (forall f | f in dict :: 0 <= f)
    && (forall f: nat :: f in dict <==> Called(u, f) != {})
    && (forall f: nat | f in dict :: SameElements(dict[f], Called(u, f)))
  }

  lemma {:induction false} CallDict(u: Unit, parts: seq<seq<nat>>)
    requires CompiledIn(u, parts)
    ensures IsCallDict(u, Extend(map[], AllCallRows(u, parts)))
  {
    CallFileMeaning(u, parts);
    DescribedCallDict(u, parts, AllCallRows(u, parts));
  }

  lemma {:induction false} DescribedCallDict(u: Unit, parts: seq<seq<nat>>, rows: seq<Row>)
    requires CompiledIn(u, parts) && DescribesCallRows(rows, u, Flat(parts))
    ensures IsCallDict(u, Extend(map[], rows))
  {
    ExtendMeaning(map[], rows);
    var dict := Extend(map[], rows);
    forall f | f in dict ensures 0 <= f && Called(u, f) != {} && SameElements(dict[f], Called(u, f)) {
      var k :| 0 <= k < |rows| && rows[k].id == f;
      assert IsCallRow(rows[k], u, Flat(parts));
    }
    forall f: nat | Called(u, f) != {} ensures f in dict {
      assert f in Flat(parts);
      assert HasRow(rows, f);
    }
  }

  lemma {:induction false} CallRowPacks(u: Unit, dict: Transitions, f: nat)
    requires SourceUnit(u) && FitsWords(u) && IsCallDict(u, dict) && f in dict
    ensures f < |u.functions| && Packable(Row(f, dict[f]))
    ensures forall t | 0 <= t < |dict[f]| :: 0 <= dict[f][t] < |u.functions|
  {
    CalleesAreBelow(u, f);
    assert SameElements(dict[f], Called(u, f));
    forall k | 0 <= k < |dict[f]| ensures 0 <= dict[f][k] < |u.functions| {
      assert dict[f][k] in dict[f];
    }
  }

  lemma {:induction false} CallDictPacks(u: Unit, dict: Transitions)
    requires SourceUnit(u) && FitsWords(u) && IsCallDict(u, dict)
    ensures PackableDict(dict)
  {
    FewBelow(dict.Keys, |u.functions|);
    assert |dict| == |dict.Keys|;
    forall f | f in dict ensures Packable(Row(f, dict[f])) {
      CallRowPacks(u, dict, f);
    }
  }

  lemma {:induction false} EnumeratedLinks(rows: seq<Row>, dict: Transitions, i: nat, j: nat)
    requires Enumerates(rows, dict)
    ensures RoundTrip.Names(rows, i) <==> i in dict
    ensures RoundTrip.Links(rows, i, j) <==> i in dict && j in dict[i]
  {
    if i in dict {
      var k :| 0 <= k < |rows| && rows[k].id == i;
    }
  }

  lemma {:induction false} CallRowsWithin(u: Unit, dict: Transitions, rows: seq<Row>)
    requires SourceUnit(u) && FitsWords(u) && IsCallDict(u, dict) && Enumerates(rows, dict)
    ensures RoundTrip.WithinTable(rows, |u.functions|)
  {
    forall k | 0 <= k < |rows|
      ensures 0 <= rows[k].id < |u.functions|
      ensures forall t | 0 <= t < |rows[k].targets| :: 0 <= rows[k].targets[t] < |u.functions|
    {
      assert rows[k].id in dict && dict[rows[k].id] == rows[k].targets;
      CallRowPacks(u, dict, rows[k].id);
    }
  }

  lemma {:induction false} CallRowsLoad(u: Unit, dict: Transitions, rows: seq<Row>, m: Matrix)
    requires IsCallDict(u, dict) && Enumerates(rows, dict)
    requires RoundTrip.Adds(NoMatrix(|u.functions|), rows, m)
    ensures DescribesCalls(u, m)
  {
    forall f: nat | f < |u.functions| ensures m[f].Some? <==> exists g: nat :: MakesCall(u, f, g) {
      EnumeratedLinks(rows, dict, f, 0);
      SomeCall(u, f);
    }
    forall f: nat, g: nat ensures Edge(m, f, g) <==> MakesCall(u, f, g) {
      EnumeratedLinks(rows, dict, f, g);
      CalledMeaning(u, f, g);
      assert f in dict ==> SameElements(dict[f], Called(u, f));
    }
  }

  lemma {:induction false} SomeCall(u: Unit, f: nat)
    ensures Called(u, f) != {} <==> exists g: nat :: MakesCall(u, f, g)
  {
    forall g: nat ensures g in Called(u, f) <==> MakesCall(u, f, g) {
      CalledMeaning(u, f, g);
    }
    if Called(u, f) != {} {
      var g :| g in Called(u, f);
      assert MakesCall(u, f, g);
    }
  }

  // ----- Blocks

  /** The packets of the block tables from position i on, loaded one after the other. */
  function LoadAllBlocks(packets: seq<Packet>, i: nat, fs: seq<FunctionData>): (Status, seq<FunctionData>)
    requires i <= |packets|
    decreases |packets| - i
  {
    if i == |packets| then (Loaded, fs)
    else
      var (status, next) := LoadBlocks(packets[i], fs);
      if status != Loaded then (status, next) else LoadAllBlocks(packets, i + 1, next)
  }

  /** rows are the items of the dictionary read back for function func. */
  ghost predicate RowsOfFunction(func: Func, rows: seq<Row>) {
    Enumerates(rows, Extend(map[], if |func.blocks| == 1 then [] else BlockRows(func.blocks, |func.blocks|)))
  }

  /** The dictionary of a function's blocks: those that have successors, with their successors. */
  ghost predicate IsJumpDict(blocks: seq<Block>, dict: Transitions) {
    && (forall b | b in dict :: |blocks| != 1 && 0 <= b < |blocks| && dict[b] == Successors(blocks[b]))
    && (forall b: nat | |blocks| != 1 && b < |blocks| && Successors(blocks[b]) != [] :: b in dict)
  }

  lemma {:induction false} RowsMakeJumpDict(blocks: seq<Block>, rows: seq<Row>, dict: Transitions)
    requires DescribesBlocks(rows, blocks, |blocks|) && |blocks| != 1
    requires forall k | 0 <= k < |rows| :: rows[k].id in dict && dict[rows[k].id] == rows[k].targets
    requires forall b | b in dict :: exists k | 0 <= k < |rows| :: rows[k].id == b
    ensures IsJumpDict(blocks, dict)
  {
    forall b: nat | b < |blocks| && Successors(blocks[b]) != [] ensures b in dict {
      assert HasRow(rows, b);
    }
    forall b | b in dict ensures 0 <= b < |blocks| && dict[b] == Successors(blocks[b]) {
      var k :| 0 <= k < |rows| && rows[k].id == b;
    }
  }

  lemma {:induction false} BlockDictMeaning(func: Func, dict: Transitions)
    requires dict == Extend(map[], if |func.blocks| == 1 then [] else BlockRows(func.blocks, |func.blocks|))
    ensures IsJumpDict(func.blocks, dict)
  {
    if |func.blocks| != 1 {
      var rows := BlockRows(func.blocks, |func.blocks|);
      BlockRowsMeaning(func.blocks, |func.blocks|);
      ExtendMeaning(map[], rows);
      RowsMakeJumpDict(func.blocks, rows, dict);
    }
  }

  lemma {:induction false} BlockDictPacks(u: Unit, f: nat, dict: Transitions)
    requires SourceUnit(u) && FitsWords(u) && f < |u.functions| && IsJumpDict(u.functions[f].blocks, dict)
    ensures PackableDict(dict)
  {
    var blocks := u.functions[f].blocks;
    FewBelow(dict.Keys, |blocks|);
    assert |dict| == |dict.Keys|;
    forall b | b in dict ensures Packable(Row(b, dict[b])) {
      assert SourceBlock(u, blocks, b);
      assert forall k | 0 <= k < |dict[b]| :: dict[b][k] in dict[b];
    }
  }

  lemma {:induction false} BlockRowsWithin(u: Unit, f: nat, rows: seq<Row>)
    requires SourceUnit(u) && FitsWords(u) && f < |u.functions| && HasBlockTable(u.functions[f])
    requires RowsOfFunction(u.functions[f], rows)
    ensures RoundTrip.WithinTable(rows, |u.functions[f].blocks|)
  {
    var blocks := u.functions[f].blocks;
    BlockDictMeaning(u.functions[f], Extend(map[], TableOf(f, u.functions[f]).rows));
    forall k | 0 <= k < |rows|
      ensures 0 <= rows[k].id < |blocks|
      ensures forall t | 0 <= t < |rows[k].targets| :: 0 <= rows[k].targets[t] < |blocks|
    {
      assert SourceBlock(u, blocks, rows[k].id);
      assert forall t | 0 <= t < |rows[k].targets| :: rows[k].targets[t] in Successors(blocks[rows[k].id]);
    }
  }

  lemma {:induction false} BlockRowsLoad(u: Unit, f: nat, rows: seq<Row>, m: Matrix)
    requires SourceUnit(u) && FitsWords(u) && f < |u.functions| && HasBlockTable(u.functions[f])
    requires RowsOfFunction(u.functions[f], rows)
    requires RoundTrip.Adds(NoMatrix(|u.functions[f].blocks|), rows, m)
    ensures DescribesJumps(u.functions[f].blocks, m)
  {
    var blocks := u.functions[f].blocks;
    var dict := Extend(map[], TableOf(f, u.functions[f]).rows);
    BlockDictMeaning(u.functions[f], dict);
    forall b: nat, c: nat
      ensures Edge(m, b, c) <==> |blocks| != 1 && b < |blocks| && c in Successors(blocks[b])
    {
      EnumeratedLinks(rows, dict, b, c);
    }
  }

  /** The functions in done have their block table, the others have none yet. */
  ghost predicate FunctionSoFar(func: Func, loaded: bool, fd: FunctionData) {
    && fd.name == func.name && fd.flags == func.flag && WellFormedFunction(fd)
    && if loaded then fd.nbBlocks == |func.blocks| && DescribesJumps(func.blocks, fd.controlFlowGraph)
       else fd.nbBlocks == 0
  }

  ghost predicate FirstSoFar(u: Unit, done: set<nat>, fs: seq<FunctionData>, n: nat)
    requires n <= |fs| == |u.functions|
  {
    n > 0 ==> FunctionSoFar(u.functions[n - 1], n - 1 in done, fs[n - 1]) && FirstSoFar(u, done, fs, n - 1)
  }

  ghost predicate BlocksSoFar(u: Unit, done: set<nat>, fs: seq<FunctionData>) {
    |fs| == |u.functions| && FirstSoFar(u, done, fs, |fs|)
  }

  lemma {:induction false} EachSoFar(u: Unit, done: set<nat>, fs: seq<FunctionData>, n: nat)
    requires n <= |fs| == |u.functions|
    ensures FirstSoFar(u, done, fs, n) <==> forall f | 0 <= f < n :: FunctionSoFar(u.functions[f], f in done, fs[f])
    decreases n
  {
    if n > 0 {
      EachSoFar(u, done, fs, n - 1);
    }
  }

  lemma {:induction false} OneBlockTable(u: Unit, done: set<nat>, fs: seq<FunctionData>, t: BlockTable)
    requires SourceUnit(u) && FitsWords(u) && BlocksSoFar(u, done, fs)
    requires 0 <= t.fn < |u.functions| && t.fn !in done && HasBlockTable(u.functions[t.fn])
    requires t.nbBlocks == |u.functions[t.fn].blocks| && RowsOfFunction(u.functions[t.fn], t.rows)
    requires IsWord(t.fn) && IsWord(|t.rows|) && AllPackable(t.rows)
    ensures var (status, next) := LoadBlocks(PackBlocks(t.fn, t.nbBlocks, t.rows), fs);
            status == Loaded && BlocksSoFar(u, done + {t.fn}, next)
  {
    var next := LoadBlocks(PackBlocks(t.fn, t.nbBlocks, t.rows), fs).1;
    EachSoFar(u, done, fs, |fs|);
    assert FunctionSoFar(u.functions[t.fn], t.fn in done, fs[t.fn]);
    BlockRowsWithin(u, t.fn, t.rows);
    RoundTrip.BlocksRoundTrip(t.fn, t.nbBlocks, t.rows, fs);
    BlockRowsLoad(u, t.fn, t.rows, next[t.fn].controlFlowGraph);
    OthersSoFar(u, done, t.fn, fs, next);
  }

  lemma {:induction false} OthersSoFar(u: Unit, done: set<nat>, fn: nat, fs: seq<FunctionData>, next: seq<FunctionData>)
    requires |next| == |fs| == |u.functions| && fn < |fs| && BlocksSoFar(u, done, fs)
    requires FunctionSoFar(u.functions[fn], true, next[fn])
    requires forall f | 0 <= f < |fs| && f != fn :: next[f] == fs[f]
    ensures BlocksSoFar(u, done + {fn}, next)
  {
    EachSoFar(u, done, fs, |fs|);
    forall f | 0 <= f < |fs| ensures FunctionSoFar(u.functions[f], f in done + {fn}, next[f]) {
      assert FunctionSoFar(u.functions[f], f in done, fs[f]);
    }
    EachSoFar(u, done + {fn}, next, |next|);
  }

  /** The dictionaries read back from the text that the pass wrote about the blocks of u. */
  ghost predicate IsBlockDicts(u: Unit, d: BlockDicts) {
    && (forall f | f in d.bb :: 0 <= f)
    && (forall f: nat :: f in d.bb <==> f < |u.functions| && HasBlockTable(u.functions[f]))
    && (forall f: nat | f in d.bb ::
          && f in d.nums && d.nums[f] == |u.functions[f].blocks|
          && d.bb[f] == Extend(map[], TableOf(f, u.functions[f]).rows))
  }

  lemma {:induction false} DescribedDicts(u: Unit, parts: seq<seq<nat>>, ts: seq<BlockTable>, d: BlockDicts)
    requires CompiledIn(u, parts) && DescribesFunctions(ts, u, Flat(parts))
    requires forall k | 0 <= k < |ts| ::
               && ts[k].fn in d.bb && d.bb[ts[k].fn] == Extend(map[], ts[k].rows)
               && ts[k].fn in d.nums && d.nums[ts[k].fn] == ts[k].nbBlocks
    requires forall f | f in d.bb :: exists k | 0 <= k < |ts| :: ts[k].fn == f
    ensures IsBlockDicts(u, d)
  {
    forall f: nat ensures f in d.bb <==> f < |u.functions| && HasBlockTable(u.functions[f]) {
      if f in d.bb {
        var k :| 0 <= k < |ts| && ts[k].fn == f;
      }
      if f < |u.functions| && HasBlockTable(u.functions[f]) {
        assert HasTable(ts, f);
      }
    }
    forall f: nat | f in d.bb
      ensures f in d.nums && d.nums[f] == |u.functions[f].blocks|
                && d.bb[f] == Extend(map[], TableOf(f, u.functions[f]).rows)
    {
      var k :| 0 <= k < |ts| && ts[k].fn == f;
      assert ts[k] == TableOf(f, u.functions[f]);
    }
  }

  lemma {:induction false} BlockDictsRead(u: Unit, parts: seq<seq<nat>>)
    requires CompiledIn(u, parts)
    ensures ParseBBLines(Lines(BlocksText(BlockTables(u, Flat(parts)))), NO_BLOCK_DICT).Some?
    ensures IsBlockDicts(u, ParseBBLines(Lines(BlocksText(BlockTables(u, Flat(parts)))), NO_BLOCK_DICT).value)
  {
    var ts := BlockTables(u, Flat(parts));
    BlockTablesMeaning(u, Flat(parts));
    BlocksTextRoundTrip(ts);
    DescribedDicts(u, parts, ts, AddTables(NO_BLOCK_DICT, ts));
  }

  // ----- The steps, one after the other

  /** The function table, in the order of the ids. */
  function EntriesOf(u: Unit, n: nat): (entries: seq<Entry>)
    requires n <= |u.functions|
    ensures |entries| == n
    ensures forall f | 0 <= f < n :: entries[f] == Entry(f, u.functions[f].flag, u.functions[f].name)
  {
    if n == 0 then [] else EntriesOf(u, n - 1) + [Entry(n - 1, u.functions[n - 1].flag, u.functions[n - 1].name)]
  }

  /** How many functions have the flag. */
  function CountFunctions(functions: seq<Func>, flag: Flag): nat {
    if functions == [] then 0
    else
      var n := |functions| - 1;
      CountFunctions(functions[..n], flag) + if functions[n].flag == flag then 1 else 0
  }

  function Flagged(functions: seq<Func>, flag: Flag): set<nat> {
    set f: nat | f < |functions| && functions[f].flag == flag
  }

  lemma {:induction false} FlaggedSnoc(functions: seq<Func>, flag: Flag)
    requires functions != []
    ensures var n := |functions| - 1;
            && n !in Flagged(functions[..n], flag)
            && Flagged(functions, flag) == Flagged(functions[..n], flag) + if functions[n].flag == flag then {n} else {}
  {
  }

  lemma {:induction false} CountIsCardinality(functions: seq<Func>, flag: Flag)
    ensures CountFunctions(functions, flag) == |Flagged(functions, flag)|
    decreases |functions|
  {
    if functions != [] {
      CountIsCardinality(functions[..|functions| - 1], flag);
      FlaggedSnoc(functions, flag);
    }
  }

  lemma {:induction false} CountSnoc(entries: seq<Entry>, e: Entry, flag: Flag)
    ensures RoundTrip.CountFlag(entries + [e], flag) ==
            RoundTrip.CountFlag(entries, flag) + if e.flag == flag then 1 else 0
    decreases |entries|
  {
    if entries == [] {
      assert (entries + [e])[1..] == [];
    } else {
      assert (entries + [e])[1..] == entries[1..] + [e];
      CountSnoc(entries[1..], e, flag);
    }
  }

  lemma {:induction false} CountedEntries(u: Unit, n: nat, flag: Flag)
    requires n <= |u.functions|
    ensures RoundTrip.CountFlag(EntriesOf(u, n), flag) == CountFunctions(u.functions[..n], flag)
    decreases n
  {
    if n > 0 {
      CountedEntries(u, n - 1, flag);
      CountSnoc(EntriesOf(u, n - 1), EntriesOf(u, n)[n - 1], flag);
      assert u.functions[..n][..n - 1] == u.functions[..n - 1];
    }
  }

  /** The .fctid file of the binary. */
  function FileOf(u: Unit): (file: Ids.IdFile)
    requires SourceUnit(u)
    ensures file.Keys == u.names.ids.Keys && Ids.IdsOf(file) == u.names.ids
    ensures |file| == |u.functions| && Ids.Numbered(Ids.IdsOf(file))
    ensures forall f | 0 <= f < |u.functions| ::
              u.functions[f].name in file && file[u.functions[f].name] == Ids.Known(f, u.functions[f].flag)
  {
    var file := map a | a in u.names.ids :: Ids.Known(u.names.ids[a], u.functions[u.names.ids[a]].flag);
    assert Ids.IdsOf(file) == u.names.ids;
    NamesAreNumbered(u);
    file
  }

  lemma {:induction false} NamesAreNumbered(u: Unit)
    requires SourceUnit(u)
    ensures |u.names.ids| == |u.functions| && Ids.Numbered(u.names.ids)
  {
    var names := FirstNames(u, |u.functions|);
    assert names == u.names.ids.Keys && |u.names.ids| == |u.names.ids.Keys|;
    forall i: nat | i < |u.names.ids| ensures Ids.HasNumber(u.names.ids, i) {
      assert u.names.ids[u.functions[i].name] == i;
    }
  }

  lemma {:induction false} FirstNames(u: Unit, n: nat) returns (names: set<string>)
    requires SourceUnit(u) && n <= |u.functions|
    ensures |names| == n && forall a :: a in names <==> a in u.names.ids && u.names.ids[a] < n
    decreases n
  {
    names := {};
    if n > 0 {
      var fewer := FirstNames(u, n - 1);
      assert u.functions[n - 1].name !in fewer;
      names := fewer + {u.functions[n - 1].name};
    }
  }

  /** The function table of the binary, written, read and packed. */
  method PackFunctionTable(u: Unit, path: string) returns (packet: Packet)
    requires SourceUnit(u) && FitsWords(u) && IsWordText(path) && !Reserved(path)
    ensures AllEntries(EntriesOf(u, |u.functions|)) && packet == PackFctids(EntriesOf(u, |u.functions|))
  {
    ghost var entries;
    packet, entries := PackNames(FileOf(u), path);
    forall k | 0 <= k < |entries| ensures entries[k] == EntriesOf(u, |u.functions|)[k] {
      assert u.names.ids[entries[k].name] == k;
    }
    assert entries == EntriesOf(u, |u.functions|);
  }

  method LoadNames(u: Unit, path: string) returns (tables: ModuleTables, status: Status)
    requires SourceUnit(u) && FitsWords(u) && IsWordText(path) && !Reserved(path)
    ensures fresh(tables) && tables.Shaped() && tables.hasTables
    ensures status == Loaded && BlocksSoFar(u, {}, tables.functions)
    ensures tables.callGraph == NoMatrix(|u.functions|) && tables.relocations == Zeros(|u.functions|)
    ensures tables.inits == CountFunctions(u.functions, Init)
    ensures tables.finis == CountFunctions(u.functions, Fini)
  {
    tables := new ModuleTables();
    var packet := PackFunctionTable(u, path);
    EntriesLoad(u);
    status := tables.LoadFunctionIds(packet);
  }

  lemma {:induction false} EntriesLoad(u: Unit)
    requires FitsWords(u) && AllEntries(EntriesOf(u, |u.functions|))
    ensures var n, entries := |u.functions|, EntriesOf(u, |u.functions|);
            var (status, t) := LoadEntries(PackFctids(entries), 4, n, FunctionTable(NoFunctions(n), 0, 0));
            && GetU32(PackFctids(entries), 0) == Some(n)
            && status == Loaded && BlocksSoFar(u, {}, t.functions)
            && t.inits == CountFunctions(u.functions, Init) && t.finis == CountFunctions(u.functions, Fini)
  {
    var n, entries := |u.functions|, EntriesOf(u, |u.functions|);
    CountedEntries(u, n, Init);
    CountedEntries(u, n, Fini);
    assert u.functions[..n] == u.functions;
    RoundTrip.FunctionTableRoundTrip(entries);
    var empty := FunctionTable(NoFunctions(n), 0, 0);
    FilledTable(u, empty, LoadEntries(PackFctids(entries), 4, n, empty).1);
  }

  lemma {:induction false} FilledTable(u: Unit, empty: FunctionTable, t: FunctionTable)
    requires |empty.functions| == |u.functions| && RoundTrip.Fills(empty, EntriesOf(u, |u.functions|), t)
    ensures BlocksSoFar(u, {}, t.functions)
  {
    var entries := EntriesOf(u, |u.functions|);
    assert forall f | 0 <= f < |u.functions| ::
      t.functions[entries[f].id] == FunctionData(entries[f].name, entries[f].flag, 0, [], []);
    EachSoFar(u, {}, t.functions, |t.functions|);
  }

  method SendCalls(u: Unit, dict: Transitions, tables: ModuleTables) returns (status: Status)
    requires SourceUnit(u) && FitsWords(u) && IsCallDict(u, dict)
    requires tables.Shaped() && |tables.functions| == |u.functions| && tables.callGraph == NoMatrix(|u.functions|)
    modifies tables`callGraph
    ensures tables.Shaped()
    ensures status == if |u.functions| == 0 then Error(1) else Loaded
    ensures status == Loaded ==> DescribesCalls(u, tables.callGraph)
  {
    CallDictPacks(u, dict);
    var packet, rows := GenPackedCallgraph(dict);
    CallRowsWithin(u, dict, rows);
    RoundTrip.CallGraphRoundTrip(rows, |u.functions|);
    status := tables.LoadFunctionTransition(packet);
    if status == Loaded {
      CallRowsLoad(u, dict, rows, tables.callGraph);
    }
  }

  method WriteAndParseCalls(u: Unit, parts: seq<seq<nat>>) returns (dict: Transitions)
    requires CompiledIn(u, parts)
    ensures IsCallDict(u, dict)
  {
    var text := WriteCallFile(u, parts);
    CallgraphTextRoundTrip(AllCallRows(u, parts));
    var parsed := ParseCallgraph(text);
    CallDict(u, parts);
    return parsed.value;
  }

  /** A binary without functions is the only one whose call table is refused. */
  method LoadCalls(u: Unit, parts: seq<seq<nat>>, tables: ModuleTables) returns (status: Status)
    requires SourceUnit(u) && FitsWords(u) && CompiledIn(u, parts)
    requires tables.Shaped() && |tables.functions| == |u.functions| && tables.callGraph == NoMatrix(|u.functions|)
    modifies tables`callGraph
    ensures tables.Shaped()
    ensures status == if |u.functions| == 0 then Error(1) else Loaded
    ensures status == Loaded ==> DescribesCalls(u, tables.callGraph)
  {
    var dict := WriteAndParseCalls(u, parts);
    status := SendCalls(u, dict, tables);
  }

  lemma {:induction false} BlockDictsPack(u: Unit, d: BlockDicts, order: seq<nat>)
    requires SourceUnit(u) && FitsWords(u) && IsBlockDicts(u, d)
    requires forall f :: f in order <==> f in d.bb.Keys
    ensures forall k | 0 <= k < |order| :: PackableFunction(d, order[k])
  {
    forall k | 0 <= k < |order|
      ensures PackableFunction(d, order[k])
    {
      assert order[k] in order;
      BlockDictMeaning(u.functions[order[k]], d.bb[order[k]]);
      BlockDictPacks(u, order[k], d.bb[order[k]]);
    }
  }

  /** packet is the block table of function t.fn, with its rows in some order. */
  ghost predicate PacksTable(u: Unit, f: nat, t: BlockTable, packet: Packet) {
    && t.fn == f < |u.functions| && HasBlockTable(u.functions[f])
    && t.nbBlocks == |u.functions[f].blocks| && RowsOfFunction(u.functions[f], t.rows)
    && IsWord(f) && IsWord(t.nbBlocks) && IsWord(|t.rows|) && AllPackable(t.rows)
    && packet == PackBlocks(f, t.nbBlocks, t.rows)
  }

  /** The first n packets are, by recursion. */
  ghost predicate FirstPacked(u: Unit, order: seq<nat>, ts: seq<BlockTable>, packets: seq<Packet>, n: nat)
    requires n <= |order| == |ts| == |packets|
  {
    n > 0 ==> FirstPacked(u, order, ts, packets, n - 1) && PacksTable(u, order[n - 1], ts[n - 1], packets[n - 1])
  }

  ghost predicate AllPacked(u: Unit, order: seq<nat>, ts: seq<BlockTable>, packets: seq<Packet>) {
    |order| == |ts| == |packets| && FirstPacked(u, order, ts, packets, |packets|)
  }

  lemma {:induction false} OnePacked(u: Unit, order: seq<nat>, ts: seq<BlockTable>, packets: seq<Packet>, n: nat,
                                     k: nat)
    requires k < n <= |order| == |ts| == |packets| && FirstPacked(u, order, ts, packets, n)
    ensures PacksTable(u, order[k], ts[k], packets[k])
    decreases n
  {
    if k < n - 1 {
      OnePacked(u, order, ts, packets, n - 1, k);
    }
  }

  lemma {:induction false} PacksTables(u: Unit, d: BlockDicts, order: seq<nat>, ts: seq<BlockTable>,
                                       packets: seq<Packet>, n: nat)
    requires IsBlockDicts(u, d) && PacksAll(d, order, ts, packets) && n <= |packets|
    ensures n <= |order| == |ts| == |packets| && FirstPacked(u, order, ts, packets, n)
    decreases n
  {
    if n > 0 {
      PacksTables(u, d, order, ts, packets, n - 1);
      OnePacks(u, d, order, ts, packets, n - 1);
    }
  }

  lemma {:induction false} OnePacks(u: Unit, d: BlockDicts, order: seq<nat>, ts: seq<BlockTable>,
                                    packets: seq<Packet>, k: nat)
    requires IsBlockDicts(u, d) && PacksAll(d, order, ts, packets) && k < |packets|
    ensures k < |order| == |ts| == |packets| && PacksTable(u, order[k], ts[k], packets[k])
  {
    PacksEach(d, order, ts, packets, k);
  }

  function FirstOf(order: seq<nat>, n: nat): set<nat>
    requires n <= |order|
  {
    if n == 0 then {} else FirstOf(order, n - 1) + {order[n - 1]}
  }

  lemma {:induction false} FirstOfMeaning(order: seq<nat>, n: nat, f: nat)
    requires n <= |order|
    ensures f in FirstOf(order, n) <==> exists k | 0 <= k < n :: order[k] == f
    decreases n
  {
    if n > 0 {
      FirstOfMeaning(order, n - 1, f);
    }
  }

  lemma {:induction false} NotYet(order: seq<nat>, i: nat)
    requires i < |order| && Distinct(order)
    ensures order[i] !in FirstOf(order, i)
  {
    FirstOfMeaning(order, i, order[i]);
  }

  /** The packets that the generated constructor sends, one per function. */
  method SendBlockTables(tables: ModuleTables, packets: seq<Packet>) returns (status: Status)
    requires tables.Shaped() && tables.functions != []
    modifies tables`functions
    ensures tables.Shaped()
    ensures (status, tables.functions) == LoadAllBlocks(packets, 0, old(tables.functions))
  {
    status := Loaded;
    for i := 0 to |packets|
      invariant tables.Shaped() && tables.functions != []
      invariant LoadAllBlocks(packets, 0, old(tables.functions)) == LoadAllBlocks(packets, i, tables.functions)
    {
      status := tables.LoadBlockTransition(packets[i]);
      if status != Loaded {
        return;
      }
    }
    status := Loaded;
  }

  /** All the packets load, and then every function listed has its block table. */
  lemma {:induction false} AllBlocksLoad(u: Unit, order: seq<nat>, ts: seq<BlockTable>, packets: seq<Packet>,
                                         i: nat, fs: seq<FunctionData>)
    requires SourceUnit(u) && FitsWords(u) && AllPacked(u, order, ts, packets) && Distinct(order)
    requires i <= |packets| == |order| && BlocksSoFar(u, FirstOf(order, i), fs)
    ensures AllLoaded(u, order, LoadAllBlocks(packets, i, fs))
    decreases |packets| - i
  {
    if i < |packets| {
      var next := NextBlocksLoad(u, order, ts, packets, i, fs);
      AllBlocksLoad(u, order, ts, packets, i + 1, next);
    }
  }

  ghost predicate AllLoaded(u: Unit, order: seq<nat>, result: (Status, seq<FunctionData>)) {
    result.0 == Loaded && BlocksSoFar(u, FirstOf(order, |order|), result.1)
  }

  lemma {:induction false} NextBlocksLoad(u: Unit, order: seq<nat>, ts: seq<BlockTable>, packets: seq<Packet>,
                                          i: nat, fs: seq<FunctionData>) returns (next: seq<FunctionData>)
    requires SourceUnit(u) && FitsWords(u) && AllPacked(u, order, ts, packets) && Distinct(order)
    requires i < |packets| == |order| && BlocksSoFar(u, FirstOf(order, i), fs)
    ensures LoadAllBlocks(packets, i, fs) == LoadAllBlocks(packets, i + 1, next)
    ensures BlocksSoFar(u, FirstOf(order, i + 1), next)
  {
    OnePacked(u, order, ts, packets, |packets|, i);
    NotYet(order, i);
    OneBlockTable(u, FirstOf(order, i), fs, ts[i]);
    next := LoadBlocks(packets[i], fs).1;
  }

  /** The order in which the dictionary happens to be iterated. */
  method OrderOf(d: BlockDicts) returns (order: seq<nat>)
    requires forall f | f in d.bb :: 0 <= f
    ensures (forall f :: f in order <==> f in d.bb.Keys) && Distinct(order)
  {
    order := Listed(d.bb.Keys);
  }

  method LoadJumps(u: Unit, parts: seq<seq<nat>>, tables: ModuleTables) returns (status: Status)
    requires SourceUnit(u) && FitsWords(u) && |u.functions| > 0 && CompiledIn(u, parts)
    requires tables.Shaped() && tables.hasTables && BlocksSoFar(u, {}, tables.functions)
    modifies tables`functions
    ensures tables.Shaped() && status == Loaded
    ensures |tables.functions| == |u.functions|
    ensures forall f | 0 <= f < |u.functions| :: DescribesFunction(u.functions[f], tables.functions[f])
  {
    var text := WriteBlockFile(u, parts);
    BlockDictsRead(u, parts);
    var dicts := ParseBB(text);
    var order := OrderOf(dicts.value);
    BlockDictsPack(u, dicts.value, order);
    var packets, ts := GenPackedBB(dicts.value, order);
    PacksTables(u, dicts.value, order, ts, packets, |packets|);
    AllBlocksLoad(u, order, ts, packets, 0, tables.functions);
    status := SendBlockTables(tables, packets);
    AllTablesLoaded(u, dicts.value, order, tables.functions);
  }

  lemma {:induction false} AllTablesLoaded(u: Unit, d: BlockDicts, order: seq<nat>, fs: seq<FunctionData>)
    requires IsBlockDicts(u, d) && forall f :: f in order <==> f in d.bb.Keys
    requires BlocksSoFar(u, FirstOf(order, |order|), fs)
    ensures |fs| == |u.functions|
    ensures forall f | 0 <= f < |u.functions| :: DescribesFunction(u.functions[f], fs[f])
  {
    forall f | 0 <= f < |u.functions| ensures DescribesFunction(u.functions[f], fs[f]) {
      FirstOfMeaning(order, |order|, f);
      EachSoFar(u, FirstOf(order, |order|), fs, |fs|);
      assert FunctionSoFar(u.functions[f], f in FirstOf(order, |order|), fs[f]);
      assert f in order <==> HasBlockTable(u.functions[f]);
    }
  }

  /** A line of the post-dominator table is about an existing block. */
  predicate AboutBlocks(u: Unit, ipds: seq<Ipd>) {
    forall k | 0 <= k < |ipds| ::
      ipds[k].fn < |u.functions| && ipds[k].block < |u.functions[ipds[k].fn].blocks|
  }

  /** It is about a function whose blocks are traced.  The pass writes lines at every level, so when the
      runs of a prefix were made at different levels there are others too. */
  predicate AboutTraced(u: Unit, ipds: seq<Ipd>) {
    forall k | 0 <= k < |ipds| ::
      ipds[k].fn < |u.functions| && u.functions[ipds[k].fn].traced && u.functions[ipds[k].fn].blocks != []
  }

  lemma {:induction false} IpdsKeepDescription(u: Unit, before: seq<FunctionData>, ipds: seq<Ipd>)
    requires |before| == |u.functions| && AboutBlocks(u, ipds) && AboutTraced(u, ipds)
    requires forall f | 0 <= f < |u.functions| :: DescribesFunction(u.functions[f], before[f])
    ensures RoundTrip.IpdsWithin(ipds, before)
    ensures forall after | RoundTrip.Dominates(before, ipds, after) ::
              |after| == |u.functions| && forall f | 0 <= f < |u.functions| ::
                DescribesFunction(u.functions[f], after[f])
  {
    assert forall k | 0 <= k < |ipds| :: DescribesFunction(u.functions[ipds[k].fn], before[ipds[k].fn]);
    forall after, f | RoundTrip.Dominates(before, ipds, after) && 0 <= f < |u.functions|
      ensures DescribesFunction(u.functions[f], after[f])
    {
      assert DescribesFunction(u.functions[f], before[f]);
    }
  }

  lemma {:induction false} IpdsStop(u: Unit, before: seq<FunctionData>, ipds: seq<Ipd>)
    requires |before| == |u.functions| && AboutBlocks(u, ipds) && !AboutTraced(u, ipds)
    requires forall f | 0 <= f < |u.functions| :: DescribesFunction(u.functions[f], before[f])
    ensures RoundTrip.IpdsWithinSome(ipds, before) && RoundTrip.AboutNoTable(ipds, before)
  {
    assert forall k | 0 <= k < |ipds| :: DescribesFunction(u.functions[ipds[k].fn], before[ipds[k].fn]);
    var k :| 0 <= k < |ipds| && !(u.functions[ipds[k].fn].traced && u.functions[ipds[k].fn].blocks != []);
    assert DescribesFunction(u.functions[ipds[k].fn], before[ipds[k].fn]);
    assert before[ipds[k].fn].nbBlocks == 0;
  }

  lemma {:induction false} IpdsLoad(u: Unit, before: seq<FunctionData>, ipds: seq<Ipd>)
    requires |before| == |u.functions| && IsWord(|ipds|) && AllIpds(ipds) && AboutBlocks(u, ipds)
    requires forall f | 0 <= f < |u.functions| :: DescribesFunction(u.functions[f], before[f])
    ensures GetU32(PackBlockIpd(ipds), 0) == Some(|ipds|)
    ensures var (status, after) := LoadIpds(PackBlockIpd(ipds), 4, |ipds|, before);
            && status == (if AboutTraced(u, ipds) then Loaded else Error(4))
            && (status == Loaded ==>
                  |after| == |u.functions| && forall f | 0 <= f < |u.functions| ::
                    DescribesFunction(u.functions[f], after[f]))
  {
    if AboutTraced(u, ipds) {
      IpdsKeepDescription(u, before, ipds);
      RoundTrip.IpdRoundTrip(ipds, before);
    } else {
      IpdsStop(u, before, ipds);
      RoundTrip.IpdWithoutTable(ipds, before);
    }
  }

  /** A post-dominator table about existing blocks loads and leaves every edge as it was, or is refused
      with error 4 if it is about a function without a block table. */
  method LoadDominators(u: Unit, tables: ModuleTables, ipds: seq<Ipd>) returns (status: Status)
    requires IsWord(|ipds|) && AllIpds(ipds) && AboutBlocks(u, ipds)
    requires tables.Shaped() && tables.hasTables && |tables.functions| == |u.functions|
    requires forall f | 0 <= f < |u.functions| :: DescribesFunction(u.functions[f], tables.functions[f])
    modifies tables`functions
    ensures tables.Shaped() && status == if AboutTraced(u, ipds) then Loaded else Error(4)
    ensures status == Loaded ==> |tables.functions| == |u.functions| && forall f | 0 <= f < |u.functions| ::
              DescribesFunction(u.functions[f], tables.functions[f])
  {
    var text := WriteIpds(ipds);
    IpdTextRoundTrip(ipds);
    var parsed := ParseBBIpd(text);
    IpdsOfNumbers(ipds);
    var packet := GenPackedBBIpd(parsed.value);
    IpdsLoad(u, tables.functions, ipds);
    status := tables.LoadBlockIpd(packet.value);
  }

  /** DescribesFunction for the first n functions, by recursion. */
  ghost predicate FirstDescribed(u: Unit, fs: seq<FunctionData>, n: nat)
    requires n <= |fs| == |u.functions|
  {
    n > 0 ==> DescribesFunction(u.functions[n - 1], fs[n - 1]) && FirstDescribed(u, fs, n - 1)
  }

  ghost predicate FunctionsDescribed(u: Unit, fs: seq<FunctionData>) {
    |fs| == |u.functions| && FirstDescribed(u, fs, |fs|)
  }

  lemma {:induction false} EachDescribed(u: Unit, fs: seq<FunctionData>, n: nat)
    requires n <= |fs| == |u.functions|
    ensures FirstDescribed(u, fs, n) <==> forall f | 0 <= f < n :: DescribesFunction(u.functions[f], fs[f])
    decreases n
  {
    if n > 0 {
      EachDescribed(u, fs, n - 1);
    }
  }

  lemma {:induction false} UnitDescribed(u: Unit, md: ModuleData)
    requires FunctionsDescribed(u, md.functions) && DescribesCalls(u, md.callGraph)
    requires |md.relocations| == |md.functions|
    ensures DescribesUnit(u, md)
  {
    EachDescribed(u, md.functions, |u.functions|);
  }

  /** The files of block tables exist.  Any run at the level of blocks creates them, even if it has no
      table to write. */
  predicate HasBlockFile(u: Unit, blockFile: bool) {
    blockFile || forall f | 0 <= f < |u.functions| :: !HasBlockTable(u.functions[f])
  }

  lemma {:induction false} NoBlocksDescribed(u: Unit, fs: seq<FunctionData>)
    requires BlocksSoFar(u, {}, fs) && forall f | 0 <= f < |u.functions| :: !HasBlockTable(u.functions[f])
    ensures FunctionsDescribed(u, fs)
  {
    EachSoFar(u, {}, fs, |fs|);
    forall f | 0 <= f < |u.functions| ensures DescribesFunction(u.functions[f], fs[f]) {
      assert FunctionSoFar(u.functions[f], false, fs[f]);
    }
    EachDescribed(u, fs, |fs|);
  }

  /** How loading the tables of a binary ends. */
  function LoadingStatus(u: Unit, blockFile: bool, ipds: seq<Ipd>): Status {
    if |u.functions| == 0 then Error(1)
    else if blockFile && !AboutTraced(u, ipds) then Error(4)
    else Loaded
  }

  /** The two control-flow tables, which the script sends if the file of block tables exists. */
  method LoadBlockTables(u: Unit, parts: seq<seq<nat>>, tables: ModuleTables, blockFile: bool, ipds: seq<Ipd>)
    returns (status: Status)
    requires SourceUnit(u) && FitsWords(u) && |u.functions| > 0 && CompiledIn(u, parts) && HasBlockFile(u, blockFile)
    requires IsWord(|ipds|) && AllIpds(ipds) && AboutBlocks(u, ipds)
    requires tables.Shaped() && tables.hasTables && BlocksSoFar(u, {}, tables.functions)
    modifies tables`functions
    ensures tables.Shaped() && status == LoadingStatus(u, blockFile, ipds)
    ensures status == Loaded ==> FunctionsDescribed(u, tables.functions)
  {
    status := Loaded;
    if blockFile {
      status := LoadJumps(u, parts, tables);
      status := LoadDominators(u, tables, ipds);
      if status == Loaded {
        EachDescribed(u, tables.functions, |u.functions|);
      }
    } else {
      NoBlocksDescribed(u, tables.functions);
    }
  }

  /** The call table and the two control-flow tables of a binary. */
  method LoadGraphs(u: Unit, parts: seq<seq<nat>>, tables: ModuleTables, blockFile: bool, ipds: seq<Ipd>)
    returns (status: Status)
    requires SourceUnit(u) && FitsWords(u) && CompiledIn(u, parts) && HasBlockFile(u, blockFile)
    requires IsWord(|ipds|) && AllIpds(ipds) && AboutBlocks(u, ipds)
    requires tables.Shaped() && tables.hasTables && BlocksSoFar(u, {}, tables.functions)
    requires tables.callGraph == NoMatrix(|u.functions|)
    modifies tables`functions, tables`callGraph
    ensures tables.Shaped() && status == LoadingStatus(u, blockFile, ipds)
    ensures status == Loaded ==> FunctionsDescribed(u, tables.functions) && DescribesCalls(u, tables.callGraph)
  {
    status := LoadCalls(u, parts, tables);
    if status == Loaded {
      status := LoadBlockTables(u, parts, tables, blockFile, ipds);
    }
  }

  /** Every table of a binary, from the runs of the pass to the monitor.  The post-dominators are any
      table about existing blocks, and path is the name of the .fctid file. */
  method CompileAndLoad(u: Unit, parts: seq<seq<nat>>, path: string, blockFile: bool, ipds: seq<Ipd>)
    returns (tables: ModuleTables, status: Status)
    requires SourceUnit(u) && FitsWords(u) && CompiledIn(u, parts) && IsWordText(path) && !Reserved(path)
    requires HasBlockFile(u, blockFile) && IsWord(|ipds|) && AllIpds(ipds) && AboutBlocks(u, ipds)
    ensures status == LoadingStatus(u, blockFile, ipds)
    ensures status == Loaded ==>
              && DescribesUnit(u, ModuleData(tables.functions, tables.callGraph, tables.relocations))
              && tables.relocations == Zeros(|u.functions|)
              && tables.inits == CountFunctions(u.functions, Init)
              && tables.finis == CountFunctions(u.functions, Fini)
  {
    tables, status := LoadNames(u, path);
    status := LoadGraphs(u, parts, tables, blockFile, ipds);
    if status == Loaded {
      UnitDescribed(u, ModuleData(tables.functions, tables.callGraph, tables.relocations));
    }
  }
}
