/**
 The transition tables that the LLVM pass writes (writeCallgraph and writeAllowedBBTrans of
 llvm_pass/CFI/CFI.cpp), from the functions of a binary to text.  A binary may be compiled in several
 runs of the pass, which append to the same tables; the functions that a run defines are given as the
 list of their ids, in the order of its function map.
 */
module PassTables {
  import opened Packing
  import opened Text
  import opened Prelink
  import opened Injector
  import opened Execution

  // ----- writeCallgraph

  function CalleeOf(names: Names, i: Instr): set<nat> {
    if Monitored(names, i) && i.callee in names.ids then {names.ids[i.callee]} else {}
  }

  function CalleesIn(names: Names, instrs: seq<Instr>): set<nat> {
    if instrs == [] then {}
    else CalleesIn(names, instrs[..|instrs| - 1]) + CalleeOf(names, instrs[|instrs| - 1])
  }

  function Callees(names: Names, blocks: seq<Block>): set<nat> {
    if blocks == [] then {}
    else Callees(names, blocks[..|blocks| - 1]) + CalleesIn(names, blocks[|blocks| - 1].instrs)
  }

  /** The functions that function f calls. */
  function Called(u: Unit, f: nat): set<nat> {
    if f < |u.functions| then Callees(u.names, u.functions[f].blocks) else {}
  }

  predicate AllBelow(part: seq<nat>, n: nat) {
    forall k | 0 <= k < |part| :: part[k] < n
  }

  /** The callees of each function that makes calls; an unidentified callee is only reported. */
  method AllowedTransitions(u: Unit, part: seq<nat>) returns (allowed: map<nat, set<nat>>)
    requires AllBelow(part, |u.functions|)
    ensures forall f: nat :: f in allowed <==> f in part && Called(u, f) != {}
    ensures forall f: nat | f in allowed :: allowed[f] == Called(u, f)
  {
    allowed := map[];
    for i := 0 to |part|
      invariant forall g: nat :: g in allowed <==> g in part[..i] && Called(u, g) != {}
      invariant forall g: nat | g in allowed :: allowed[g] == Called(u, g)
    {
      var called := CalleesOf(u.names, u.functions[part[i]].blocks);
      assert forall g: nat :: g in part[..i + 1] <==> g in part[..i] || g == part[i];
      if called != {} {
        allowed := allowed[part[i] := called];
      }
    }
    assert part[..|part|] == part;
  }

  method CalleesOf(names: Names, blocks: seq<Block>) returns (called: set<nat>)
    ensures called == Callees(names, blocks)
  {
    called := {};
    for k := 0 to |blocks|
      invariant called == Callees(names, blocks[..k])
    {
      var instrs := blocks[k].instrs;
      for j := 0 to |instrs|
        invariant called == Callees(names, blocks[..k]) + CalleesIn(names, instrs[..j])
      {
        assert instrs[..j + 1][..j] == instrs[..j];
        var i := instrs[j];
        if i.CallTo? && i.callee !in names.ignored && i.callee in names.ids {
          called := called + {names.ids[i.callee]};
        }
      }
      assert instrs[..|instrs|] == instrs;
      assert blocks[..k + 1][..k] == blocks[..k];
    }
    assert blocks[..|blocks|] == blocks;
  }

  /** Some block of function f calls, by a name that is not ignored, the function whose id is g. */
  predicate MakesCall(u: Unit, f: nat, g: nat) {
    f < |u.functions| &&
    exists k, i | 0 <= k < |u.functions[f].blocks| && i in u.functions[f].blocks[k].instrs ::
      i.CallTo? && i.callee !in u.names.ignored && i.callee in u.names.ids && u.names.ids[i.callee] == g
  }

  lemma {:induction false} CalleesInMeaning(names: Names, instrs: seq<Instr>, g: nat)
    ensures g in CalleesIn(names, instrs) <==>
            exists i | i in instrs ::
              i.CallTo? && i.callee !in names.ignored && i.callee in names.ids && names.ids[i.callee] == g
    decreases |instrs|
  {
    if instrs != [] {
      var init, last := instrs[..|instrs| - 1], instrs[|instrs| - 1];
      CalleesInMeaning(names, init, g);
      assert instrs == init + [last];
    }
  }

  /** The ids collected are those of exactly the functions called in some block. */
  lemma {:induction false} CalleesMeaning(names: Names, blocks: seq<Block>, g: nat)
    ensures g in Callees(names, blocks) <==>
            exists k, i | 0 <= k < |blocks| && i in blocks[k].instrs ::
              i.CallTo? && i.callee !in names.ignored && i.callee in names.ids && names.ids[i.callee] == g
    decreases |blocks|
  {
    if blocks != [] {
      var n := |blocks| - 1;
      CalleesMeaning(names, blocks[..n], g);
      CalleesInMeaning(names, blocks[n].instrs, g);
      assert forall k | 0 <= k < n :: blocks[..n][k] == blocks[k];
    }
  }

  lemma {:induction false} CalledMeaning(u: Unit, f: nat, g: nat)
    ensures g in Called(u, f) <==> MakesCall(u, f, g)
  {
    if f < |u.functions| {
      CalleesMeaning(u.names, u.functions[f].blocks, g);
    }
  }

  // std::map and std::set are iterated in increasing order

  predicate IsLeast(s: set<nat>, least: nat) {
    least in s && forall t: nat | t in s :: least <= t
  }

  lemma {:induction false} HasLeast(s: set<nat>) returns (least: nat)
    requires s != {}
    ensures IsLeast(s, least)
    decreases |s|
  {
    var some :| some in s;
    least := some;
    if s != {some} {
      var other := HasLeast(s - {some});
      if other < some {
        least := other;
      }
      forall t: nat | t in s ensures least <= t {
        if t != some {
          assert t in s - {some};
        }
      }
    }
  }

  ghost function Least(s: set<nat>): (least: nat)
    requires s != {}
    ensures IsLeast(s, least)
  {
    assert exists m: nat :: IsLeast(s, m) by { var m := HasLeast(s); }
    var least: nat :| IsLeast(s, least);
    least
  }

  ghost function Ascending(s: set<nat>): (list: seq<nat>)
    ensures |list| == |s| && (forall t :: t in list <==> t in s)
    ensures forall j, k | 0 <= j < k < |list| :: list[j] < list[k]
  {
    if s == {} then [] else [Least(s)] + Ascending(s - {Least(s)})
  }

  lemma {:induction false} LeastComesNext(list: seq<nat>, left: set<nat>, t: nat)
    requires IsLeast(left, t)
    ensures list + Ascending(left) == list + [t] + Ascending(left - {t})
  {
    assert t == Least(left);
  }

  method Sorted(s: set<nat>) returns (list: seq<nat>)
    ensures list == Ascending(s)
  {
    list := [];
    var left := s;
    while left != {}
      invariant list + Ascending(left) == Ascending(s)
      decreases |left|
    {
      ghost var least := HasLeast(left);
      var t: nat :| IsLeast(left, t);
      LeastComesNext(list, left, t);
      left := left - {t};
      list := list + [t];
    }
  }

  /** The rows of the keys listed, each with its set in increasing order. */
  ghost function RowsFor(allowed: map<nat, set<nat>>, keys: seq<nat>): seq<Row> {
    if keys == [] then []
    else RowsFor(allowed, keys[..|keys| - 1]) + [RowOf(allowed, keys[|keys| - 1])]
  }

  ghost function RowOf(allowed: map<nat, set<nat>>, f: nat): Row {
    Row(f, if f in allowed then Ascending(allowed[f]) else [])
  }

  ghost function CallRows(allowed: map<nat, set<nat>>): seq<Row> {
    RowsFor(allowed, Ascending(allowed.Keys))
  }

  method Listed(s: set<nat>) returns (list: seq<nat>)
    ensures |list| == |s| && (forall t :: t in list <==> t in s)
    ensures forall i, j | 0 <= i < j < |list| :: list[i] != list[j]
  {
    list := [];
    var left := s;
    while left != {}
      invariant left <= s && |list| == |s| - |left|
      invariant forall t :: t in list <==> t in s && t !in left
      invariant forall i, j | 0 <= i < j < |list| :: list[i] != list[j]
      decreases |left|
    {
      var t :| t in left;
      left := left - {t};
      list := list + [t];
    }
  }

  method WriteRow(f: nat, targets: seq<nat>) returns (line: string)
    ensures line == RowLine(Row(f, targets))
  {
    line := "(" + Signed(f) + ") ";
    for j := 0 to |targets|
      invariant line == "(" + Signed(f) + ") " + Spaced(Decimals(targets[..j]))
    {
      OneMoreTarget(targets, j);
      line := line + (Signed(targets[j]) + " ");
    }
    assert targets[..|targets|] == targets;
    RowLineIs(f, targets);
  }

  lemma {:induction false} OneMoreTarget(targets: seq<nat>, j: nat)
    requires j < |targets|
    ensures Spaced(Decimals(targets[..j + 1])) == Spaced(Decimals(targets[..j])) + (Signed(targets[j]) + " ")
  {
    SpacedDecimalsSnoc(targets[..j], targets[j]);
    assert targets[..j + 1] == targets[..j] + [targets[j]];
  }

  lemma {:induction false} RowLineIs(f: nat, targets: seq<nat>)
    ensures RowLine(Row(f, targets)) == "(" + Signed(f) + ") " + Spaced(Decimals(targets))
  {
    assert RowWords(Row(f, targets))[1..] == Decimals(targets);
    assert "(" + Signed(f) + ") " == "(" + Signed(f) + ")" + " ";
  }

  lemma {:induction false} OneMoreKey(allowed: map<nat, set<nat>>, keys: seq<nat>, i: nat)
    requires i < |keys|
    ensures CallgraphText(RowsFor(allowed, keys[..i + 1])) ==
            CallgraphText(RowsFor(allowed, keys[..i])) + (RowLine(RowOf(allowed, keys[i])) + "\n")
  {
    var before, row := RowsFor(allowed, keys[..i]), RowOf(allowed, keys[i]);
    assert keys[..i + 1][..i] == keys[..i];
    OneMoreRow(before, row);
    assert CallgraphText(before) + RowLine(row) + "\n" == CallgraphText(before) + (RowLine(row) + "\n");
  }

  method WriteSet(f: nat, s: set<nat>) returns (line: string)
    ensures line == RowLine(Row(f, Ascending(s))) + "\n"
  {
    var targets := Sorted(s);
    var row := WriteRow(f, targets);
    line := row + "\n";
  }

  method WriteCallgraph(allowed: map<nat, set<nat>>) returns (text: string)
    ensures text == CallgraphText(CallRows(allowed))
  {
    var keys := Sorted(allowed.Keys);
    forall k | 0 <= k < |keys| ensures keys[k] in allowed {
      assert keys[k] in keys;
    }
    text := WriteRows(allowed, keys);
  }

  method WriteRows(allowed: map<nat, set<nat>>, keys: seq<nat>) returns (text: string)
    requires forall k | 0 <= k < |keys| :: keys[k] in allowed
    ensures text == CallgraphText(RowsFor(allowed, keys))
  {
    text := "";
    for i := 0 to |keys|
      invariant text == CallgraphText(RowsFor(allowed, keys[..i]))
    {
      OneMoreKey(allowed, keys, i);
      var line := WriteSet(keys[i], allowed[keys[i]]);
      text := text + line;
    }
    assert keys[..|keys|] == keys;
  }

  lemma {:induction false} SpacedDecimalsSnoc(ns: seq<int>, n: int)
    ensures Spaced(Decimals(ns + [n])) == Spaced(Decimals(ns)) + Signed(n) + " "
    decreases |ns|
  {
    if ns == [] {
      assert ns + [n] == [n] && [n][1..] == [];
    } else {
      assert (ns + [n])[1..] == ns[1..] + [n];
      SpacedDecimalsSnoc(ns[1..], n);
      assert Decimals(ns)[1..] == Decimals(ns[1..]);
      assert Decimals(ns + [n])[1..] == Decimals(ns[1..] + [n]);
    }
  }

  lemma {:induction false} RowLinesSnoc(rows: seq<Row>, row: Row)
    ensures RowLines(rows + [row]) == RowLines(rows) + [RowLine(row)]
  {
    RowLinesAppend(rows, [row]);
    assert [row][1..] == [];
  }

  lemma {:induction false} OneMoreRow(rows: seq<Row>, row: Row)
    ensures CallgraphText(rows + [row]) == CallgraphText(rows) + RowLine(row) + "\n"
  {
    RowLinesSnoc(rows, row);
    FileSnoc(RowLines(rows), RowLine(row));
  }

  // ----- writeAllowedBBTrans

  function Successors(b: Block): seq<nat> {
    match b.terminator
    case Ret => []
    case Branch(succs) => succs
  }

  /** A row for each of the first n blocks that has a successor. */
  function BlockRows(blocks: seq<Block>, n: nat): seq<Row>
    requires n <= |blocks|
  {
    if n == 0 then []
    else BlockRows(blocks, n - 1) +
         if Successors(blocks[n - 1]) == [] then [] else [Row(n - 1, Successors(blocks[n - 1]))]
  }

  predicate HasBlockTable(func: Func) {
    func.traced && func.blocks != []
  }

  function TableOf(f: nat, func: Func): BlockTable {
    BlockTable(f, |func.blocks|, if |func.blocks| == 1 then [] else BlockRows(func.blocks, |func.blocks|))
  }

  function TableIfAny(u: Unit, f: nat): seq<BlockTable> {
    if f < |u.functions| && HasBlockTable(u.functions[f]) then [TableOf(f, u.functions[f])] else []
  }

  function BlockTables(u: Unit, part: seq<nat>): seq<BlockTable> {
    if part == [] then [] else TableIfAny(u, part[0]) + BlockTables(u, part[1..])
  }

  lemma {:induction false} BlockTablesAppend(u: Unit, a: seq<nat>, b: seq<nat>)
    ensures BlockTables(u, a + b) == BlockTables(u, a) + BlockTables(u, b)
    decreases |a|
  {
    if a == [] {
      assert a + b == b;
    } else {
      assert (a + b)[1..] == a[1..] + b;
      BlockTablesAppend(u, a[1..], b);
    }
  }

  method WriteAllowedBBTrans(u: Unit, part: seq<nat>) returns (text: string)
    requires AllBelow(part, |u.functions|)
    ensures text == BlocksText(BlockTables(u, part))
  {
    text := "";
    for i := 0 to |part|
      invariant text == BlocksText(BlockTables(u, part[..i]))
    {
      assert part[..i + 1] == part[..i] + [part[i]];
      OneMoreTable(u, part[..i], part[i]);
      var func := u.functions[part[i]];
      if func.traced && |func.blocks| != 0 {
        var table := WriteBlockTable(part[i], func);
        text := text + table;
      }
    }
    assert part[..|part|] == part;
  }

  lemma {:induction false} OneMoreTable(u: Unit, part: seq<nat>, f: nat)
    ensures BlocksText(BlockTables(u, part + [f])) ==
            BlocksText(BlockTables(u, part)) +
            if f < |u.functions| && HasBlockTable(u.functions[f]) then
              File(BlockLines(TableOf(f, u.functions[f])))
            else ""
  {
    BlockTablesAppend(u, part, [f]);
    assert [f][1..] == [] && BlockTables(u, [f]) == TableIfAny(u, f);
    var ts := BlockTables(u, part);
    if f < |u.functions| && HasBlockTable(u.functions[f]) {
      TablesLinesSnoc(ts, TableOf(f, u.functions[f]));
      FileAppend(TablesLines(ts), BlockLines(TableOf(f, u.functions[f])));
    } else {
      assert ts + [] == ts;
    }
  }

  method WriteBlockTable(f: nat, func: Func) returns (text: string)
    requires func.blocks != []
    ensures text == File(BlockLines(TableOf(f, func)))
  {
    var numBB := |func.blocks|;
    text := HeadLine(f, numBB) + "\n";
    TextOfTable(HeadLine(f, numBB), RowLines(BlockRows(func.blocks, numBB)));
    if numBB != 1 {
      var rows := WriteBlockRows(func.blocks);
      text := text + rows + "\n";
    }
  }

  lemma {:induction false} TextOfTable(head: string, lines: seq<string>)
    ensures File([head] + []) == head + "\n"
    ensures File([head] + (lines + [""])) == head + "\n" + File(lines) + "\n"
  {
    FileSnoc([], head);
    assert [] + [head] == [head] == [head] + [];
    FileSnoc(lines, "");
    FileAppend([head], lines + [""]);
    SameText(head + "\n", File(lines), "\n");
  }

  lemma {:induction false} SameText(a: string, b: string, c: string)
    ensures a + (b + "" + c) == a + b + c
  {
  }

  method WriteBlockRows(blocks: seq<Block>) returns (text: string)
    ensures text == File(RowLines(BlockRows(blocks, |blocks|)))
  {
    text := "";
    for k := 0 to |blocks|
      invariant text == CallgraphText(BlockRows(blocks, k))
    {
      var successors := Successors(blocks[k]);
      OneMoreBlockRow(blocks, k);
      if |successors| != 0 {
        text := text + RowLine(Row(k, successors)) + "\n";
      }
    }
  }

  lemma {:induction false} OneMoreBlockRow(blocks: seq<Block>, k: nat)
    requires k < |blocks|
    ensures CallgraphText(BlockRows(blocks, k + 1)) ==
            CallgraphText(BlockRows(blocks, k)) +
            if Successors(blocks[k]) == [] then "" else RowLine(Row(k, Successors(blocks[k]))) + "\n"
  {
    if Successors(blocks[k]) == [] {
      assert BlockRows(blocks, k + 1) == BlockRows(blocks, k);
    } else {
      var line := RowLine(Row(k, Successors(blocks[k])));
      OneMoreRow(BlockRows(blocks, k), Row(k, Successors(blocks[k])));
      assert CallgraphText(BlockRows(blocks, k)) + line + "\n" == CallgraphText(BlockRows(blocks, k)) + (line + "\n");
    }
  }

  lemma {:induction false} TablesLinesSnoc(ts: seq<BlockTable>, t: BlockTable)
    ensures TablesLines(ts + [t]) == TablesLines(ts) + BlockLines(t)
    decreases |ts|
  {
    if ts == [] {
      assert ts + [t] == [t] && [t][1..] == [];
    } else {
      assert (ts + [t])[1..] == ts[1..] + [t];
      TablesLinesSnoc(ts[1..], t);
    }
  }

  // ----- What the tables say

  predicate HasRow(rows: seq<Row>, id: nat) {
    exists k | 0 <= k < |rows| :: rows[k].id == id
  }

  /** In increasing order, one row for each of the first n blocks that has successors. */
  predicate DescribesBlocks(rows: seq<Row>, blocks: seq<Block>, n: nat)
    requires n <= |blocks|
  {
    && (forall i, j | 0 <= i < j < |rows| :: rows[i].id < rows[j].id)
    && (forall k | 0 <= k < |rows| ::
          && 0 <= rows[k].id < n && blocks[rows[k].id].terminator.Branch?
          && rows[k].targets == blocks[rows[k].id].terminator.succs != [])
    && (forall b: nat | b < n && blocks[b].terminator.Branch? && blocks[b].terminator.succs != [] :: HasRow(rows, b))
  }

  lemma {:induction false} BlockRowsMeaning(blocks: seq<Block>, n: nat)
    requires n <= |blocks|
    ensures DescribesBlocks(BlockRows(blocks, n), blocks, n) && |BlockRows(blocks, n)| <= n
    decreases n
  {
    if n > 0 {
      BlockRowsMeaning(blocks, n - 1);
      OneMoreBlock(BlockRows(blocks, n - 1), blocks, n, BlockRows(blocks, n));
    }
  }

  lemma {:induction false} OneMoreBlock(rows: seq<Row>, blocks: seq<Block>, n: nat, more: seq<Row>)
    requires 0 < n <= |blocks| && DescribesBlocks(rows, blocks, n - 1)
    requires more == rows + if Successors(blocks[n - 1]) == [] then [] else [Row(n - 1, Successors(blocks[n - 1]))]
    ensures DescribesBlocks(more, blocks, n)
  {
    assert forall k | 0 <= k < |rows| :: more[k] == rows[k];
    forall b: nat | b < n && blocks[b].terminator.Branch? && blocks[b].terminator.succs != [] ensures HasRow(more, b) {
      if b < n - 1 {
        assert HasRow(rows, b);
        var k :| 0 <= k < |rows| && rows[k].id == b;
        assert more[k].id == b;
      } else {
        assert more[|rows|].id == b;
      }
    }
  }

  predicate HasTable(ts: seq<BlockTable>, f: nat) {
    exists k | 0 <= k < |ts| :: ts[k].fn == f
  }

  predicate Distinct(part: seq<nat>) {
    forall j, k | 0 <= j < k < |part| :: part[j] != part[k]
  }

  predicate IsTable(t: BlockTable, u: Unit) {
    && 0 <= t.fn < |u.functions| && HasBlockTable(u.functions[t.fn]) && t == TableOf(t.fn, u.functions[t.fn])
  }

  /** One table for each function of the list whose blocks are traced. */
  predicate DescribesFunctions(ts: seq<BlockTable>, u: Unit, part: seq<nat>) {
    && DistinctTables(ts)
    && (forall k | 0 <= k < |ts| :: ts[k].fn in part && IsTable(ts[k], u))
    && (forall f: nat | f in part && f < |u.functions| && HasBlockTable(u.functions[f]) :: HasTable(ts, f))
  }

  lemma {:induction false} BlockTablesMeaning(u: Unit, part: seq<nat>)
    requires Distinct(part)
    ensures DescribesFunctions(BlockTables(u, part), u, part)
    decreases |part|
  {
    if part != [] {
      BlockTablesMeaning(u, part[1..]);
      assert part[0] !in part[1..] && part == [part[0]] + part[1..];
      OneMoreFunction(BlockTables(u, part[1..]), u, part[0], part[1..]);
    }
  }

  lemma {:induction false} OneMoreFunction(ts: seq<BlockTable>, u: Unit, first: nat, tail: seq<nat>)
    requires first !in tail && DescribesFunctions(ts, u, tail)
    ensures DescribesFunctions(TableIfAny(u, first) + ts, u, [first] + tail)
  {
    var part, more := [first] + tail, TableIfAny(u, first) + ts;
    assert forall f: nat :: f in part <==> f == first || f in tail;
    if TableIfAny(u, first) == [] {
      assert more == ts;
    } else {
      assert more == [TableOf(first, u.functions[first])] + ts;
      TableFirst(TableOf(first, u.functions[first]), ts);
    }
  }

  lemma {:induction false} TableFirst(t: BlockTable, ts: seq<BlockTable>)
    ensures forall k | 0 < k < |[t] + ts| :: ([t] + ts)[k] == ts[k - 1]
    ensures forall f: nat :: HasTable([t] + ts, f) <==> f == t.fn || HasTable(ts, f)
  {
    forall f: nat ensures HasTable([t] + ts, f) <==> f == t.fn || HasTable(ts, f) {
      if f == t.fn {
        assert ([t] + ts)[0].fn == f;
      } else if HasTable(ts, f) {
        var k :| 0 <= k < |ts| && ts[k].fn == f;
        assert ([t] + ts)[k + 1].fn == f;
      }
    }
  }

  // ----- Several runs of the pass

  /** The functions of the runs, one run after the other. */
  function Flat(parts: seq<seq<nat>>): seq<nat> {
    if parts == [] then [] else Flat(parts[..|parts| - 1]) + parts[|parts| - 1]
  }

  /** Every function that has blocks is compiled in exactly one run. */
  predicate CompiledIn(u: Unit, parts: seq<seq<nat>>) {
    && Distinct(Flat(parts)) && AllBelow(Flat(parts), |u.functions|)
    && forall f: nat | f < |u.functions| && u.functions[f].blocks != [] :: f in Flat(parts)
  }

  lemma {:induction false} PartIsWithin(parts: seq<seq<nat>>, i: nat)
    requires i < |parts|
    ensures Flat(parts[..i + 1]) == Flat(parts[..i]) + parts[i]
    ensures |Flat(parts[..i + 1])| <= |Flat(parts)| && Flat(parts[..i + 1]) == Flat(parts)[..|Flat(parts[..i + 1])|]
    decreases |parts| - i
  {
    assert parts[..i + 1][..i] == parts[..i];
    if i + 1 < |parts| {
      PartIsWithin(parts, i + 1);
    } else {
      assert parts[..i + 1] == parts;
    }
  }

  lemma {:induction false} PartIsBelow(parts: seq<seq<nat>>, i: nat, n: nat)
    requires i < |parts| && AllBelow(Flat(parts), n)
    ensures AllBelow(parts[i], n)
  {
    PartIsWithin(parts, i);
    var before, whole := Flat(parts[..i]), Flat(parts);
    forall k | 0 <= k < |parts[i]| ensures parts[i][k] < n {
      assert parts[i][k] == (before + parts[i])[|before| + k] == whole[|before| + k];
    }
  }

  /** The block table file once all runs have appended to it. */
  method WriteBlockFile(u: Unit, parts: seq<seq<nat>>) returns (text: string)
    requires AllBelow(Flat(parts), |u.functions|)
    ensures text == BlocksText(BlockTables(u, Flat(parts)))
  {
    text := "";
    for i := 0 to |parts|
      invariant text == BlocksText(BlockTables(u, Flat(parts[..i])))
    {
      PartIsBelow(parts, i, |u.functions|);
      PartIsWithin(parts, i);
      var more := WriteAllowedBBTrans(u, parts[i]);
      BlocksTextAppend(u, Flat(parts[..i]), parts[i]);
      text := text + more;
    }
    assert parts[..|parts|] == parts;
  }

  lemma {:induction false} BlocksTextAppend(u: Unit, a: seq<nat>, b: seq<nat>)
    ensures BlocksText(BlockTables(u, a + b)) == BlocksText(BlockTables(u, a)) + BlocksText(BlockTables(u, b))
  {
    BlockTablesAppend(u, a, b);
    TablesLinesAppend(BlockTables(u, a), BlockTables(u, b));
    FileAppend(TablesLines(BlockTables(u, a)), TablesLines(BlockTables(u, b)));
  }

  lemma {:induction false} TablesLinesAppend(a: seq<BlockTable>, b: seq<BlockTable>)
    ensures TablesLines(a + b) == TablesLines(a) + TablesLines(b)
    decreases |a|
  {
    if a == [] {
      assert a + b == b;
    } else {
      assert (a + b)[1..] == a[1..] + b;
      TablesLinesAppend(a[1..], b);
    }
  }

  /** One row for each function of the list that makes calls, listing its callees without repetition. */
  ghost predicate DescribesCallRows(rows: seq<Row>, u: Unit, part: seq<nat>) {
    && DistinctIds(rows)
    && (forall k | 0 <= k < |rows| :: IsCallRow(rows[k], u, part))
    && (forall f: nat | f in part && Called(u, f) != {} :: HasRow(rows, f))
  }

  ghost predicate IsCallRow(row: Row, u: Unit, part: seq<nat>) {
    row.id in part && Called(u, row.id) != {} && SameElements(row.targets, Called(u, row.id))
  }

  ghost predicate SameElements(list: seq<int>, s: set<int>) {
    |list| == |s| && forall g :: g in list <==> g in s
  }

  ghost function AllowedOf(u: Unit, part: seq<nat>): map<nat, set<nat>> {
    map f | f in part && Called(u, f) != {} :: Called(u, f)
  }

  lemma {:induction false} RowsForMeaning(allowed: map<nat, set<nat>>, keys: seq<nat>)
    ensures |RowsFor(allowed, keys)| == |keys|
    ensures forall k | 0 <= k < |keys| :: RowsFor(allowed, keys)[k] == RowOf(allowed, keys[k])
    decreases |keys|
  {
    if keys != [] {
      var n := |keys| - 1;
      var init := keys[..n];
      RowsForMeaning(allowed, init);
      forall k | 0 <= k < |keys| ensures RowsFor(allowed, keys)[k] == RowOf(allowed, keys[k]) {
        assert k < n ==> init[k] == keys[k];
      }
    }
  }

  lemma {:induction false} PartRows(u: Unit, part: seq<nat>)
    ensures DescribesCallRows(CallRows(AllowedOf(u, part)), u, part)
  {
    var allowed := AllowedOf(u, part);
    var keys, rows := Ascending(allowed.Keys), CallRows(allowed);
    assert forall k | 0 <= k < |keys| :: keys[k] in keys;
    RowsForMeaning(allowed, keys);
    forall k | 0 <= k < |rows| ensures rows[k].id == keys[k] && IsCallRow(rows[k], u, part) {
      assert keys[k] in allowed && rows[k] == RowOf(allowed, keys[k]);
    }
    forall f: nat | f in part && Called(u, f) != {} ensures HasRow(rows, f) {
      assert f in allowed.Keys && f in keys;
      var k :| 0 <= k < |keys| && keys[k] == f;
      assert rows[k].id == f;
    }
  }

  lemma {:induction false} MoreRows(u: Unit, a: seq<nat>, b: seq<nat>, rows: seq<Row>, more: seq<Row>)
    requires Distinct(a + b) && DescribesCallRows(rows, u, a) && DescribesCallRows(more, u, b)
    ensures DescribesCallRows(rows + more, u, a + b)
  {
    forall k | 0 <= k < |rows + more| ensures IsCallRow((rows + more)[k], u, a + b) {
      assert k < |rows| ==> IsCallRow(rows[k], u, a);
      assert k >= |rows| ==> IsCallRow(more[k - |rows|], u, b);
    }
    MoreDistinctIds(u, a, b, rows, more);
    forall f: nat | f in a + b && Called(u, f) != {} ensures HasRow(rows + more, f) {
      HasRowEither(rows, more, f);
    }
  }

  lemma {:induction false} MoreDistinctIds(u: Unit, a: seq<nat>, b: seq<nat>, rows: seq<Row>, more: seq<Row>)
    requires Distinct(a + b) && DescribesCallRows(rows, u, a) && DescribesCallRows(more, u, b)
    ensures DistinctIds(rows + more)
  {
    forall x, y | x in a && y in b ensures x != y {
      var j, k :| 0 <= j < |a| && 0 <= k < |b| && a[j] == x && b[k] == y;
      assert (a + b)[j] == x && (a + b)[|a| + k] == y;
    }
    assert forall k | 0 <= k < |rows| :: IsCallRow(rows[k], u, a);
    assert forall k | 0 <= k < |more| :: IsCallRow(more[k], u, b);
  }

  lemma {:induction false} HasRowEither(rows: seq<Row>, more: seq<Row>, f: nat)
    requires HasRow(rows, f) || HasRow(more, f)
    ensures HasRow(rows + more, f)
  {
    if HasRow(rows, f) {
      var k :| 0 <= k < |rows| && rows[k].id == f;
      assert (rows + more)[k].id == f;
    } else {
      var k :| 0 <= k < |more| && more[k].id == f;
      assert (rows + more)[|rows| + k].id == f;
    }
  }

  /** The call table of one run. */
  method WriteCalls(u: Unit, part: seq<nat>) returns (text: string)
    requires AllBelow(part, |u.functions|)
    ensures text == CallgraphText(CallRows(AllowedOf(u, part)))
  {
    var allowed := AllowedTransitions(u, part);
    assert allowed == AllowedOf(u, part);
    text := WriteCallgraph(allowed);
  }

  /** The rows of the runs, one run after the other. */
  ghost function AllCallRows(u: Unit, parts: seq<seq<nat>>): seq<Row> {
    if parts == [] then []
    else AllCallRows(u, parts[..|parts| - 1]) + CallRows(AllowedOf(u, parts[|parts| - 1]))
  }

  /** The call table file once all runs have appended to it. */
  method WriteCallFile(u: Unit, parts: seq<seq<nat>>) returns (text: string)
    requires AllBelow(Flat(parts), |u.functions|)
    ensures text == CallgraphText(AllCallRows(u, parts))
  {
    text := "";
    for i := 0 to |parts|
      invariant text == CallgraphText(AllCallRows(u, parts[..i]))
    {
      PartIsBelow(parts, i, |u.functions|);
      var more := WriteCalls(u, parts[i]);
      assert parts[..i + 1][..i] == parts[..i];
      CallgraphTextAppend(AllCallRows(u, parts[..i]), CallRows(AllowedOf(u, parts[i])));
      text := text + more;
    }
    assert parts[..|parts|] == parts;
  }

  /** In the call table file each calling function has one row, which lists its callees. */
  lemma {:induction false} CallFileMeaning(u: Unit, parts: seq<seq<nat>>)
    requires Distinct(Flat(parts))
    ensures DescribesCallRows(AllCallRows(u, parts), u, Flat(parts))
    decreases |parts|
  {
    if parts != [] {
      var init, last := parts[..|parts| - 1], parts[|parts| - 1];
      assert Flat(parts) == Flat(init) + last;
      assert Flat(init) == Flat(parts)[..|Flat(init)|];
      CallFileMeaning(u, init);
      PartRows(u, last);
      MoreRows(u, Flat(init), last, AllCallRows(u, init), CallRows(AllowedOf(u, last)));
    }
  }

  lemma {:induction false} CallgraphTextAppend(a: seq<Row>, b: seq<Row>)
    ensures CallgraphText(a + b) == CallgraphText(a) + CallgraphText(b)
  {
    RowLinesAppend(a, b);
    FileAppend(RowLines(a), RowLines(b));
  }

  lemma {:induction false} RowLinesAppend(a: seq<Row>, b: seq<Row>)
    ensures RowLines(a + b) == RowLines(a) + RowLines(b)
    decreases |a|
  {
    if a == [] {
      assert a + b == b;
    } else {
      assert (a + b)[1..] == a[1..] + b;
      RowLinesAppend(a[1..], b);
    }
  }
}
