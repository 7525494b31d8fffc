/**
 Loading what the prelink step packed gives back the tables it packed.
 */
module LoaderRoundTrip {
  import opened Wrappers
  import opened MonitorTables
  import opened Bytes
  import opened Packing
  import opened Loader

  // ----- Transitions

  /** The words are at offset at, one after the other. */
  predicate WordsAt(bytes: Packet, at: nat, words: seq<int>)
    decreases |words|
  {
    words != [] ==> GetU32(bytes, at) == Some(words[0]) && WordsAt(bytes, at + 4, words[1..])
  }

  /** The records are at offset at, each right after the one before. */
  predicate RowsAt(bytes: Packet, at: nat, rows: seq<Row>)
    decreases |rows|
  {
    rows != [] ==>
      && GetU32(bytes, at) == Some(rows[0].id) && GetU32(bytes, at + 4) == Some(|rows[0].targets|)
      && WordsAt(bytes, at + 8, rows[0].targets)
      && RowsAt(bytes, at + 8 + 4 * |rows[0].targets|, rows[1..])
  }

  lemma {:induction false} PackedWords(bytes: Packet, at: nat, words: seq<int>, rest: Packet)
    requires forall k | 0 <= k < |words| :: 0 <= words[k] < TWO32
    requires Holds(bytes, at, U32s(words) + rest)
    ensures WordsAt(bytes, at, words) && Holds(bytes, at + 4 * |words|, rest)
    decreases |words|
  {
    if words == [] {
      assert U32s(words) + rest == rest;
    } else {
      Assoc3(U32(words[0]), U32s(words[1..]), rest);
      HoldsWord(bytes, at, words[0], U32s(words[1..]) + rest);
      PackedWords(bytes, at + 4, words[1..], rest);
    }
  }

  lemma {:induction false} FirstRow(bytes: Packet, at: nat, rows: seq<Row>)
    requires AllPackable(rows) && rows != [] && Holds(bytes, at, PackRows(rows))
    ensures AllPackable(rows[1..])
    ensures GetU32(bytes, at) == Some(rows[0].id) && GetU32(bytes, at + 4) == Some(|rows[0].targets|)
    ensures WordsAt(bytes, at + 8, rows[0].targets)
    ensures Holds(bytes, at + 8 + 4 * |rows[0].targets|, PackRows(rows[1..]))
  {
    PackedRow(bytes, at, rows[0], PackRows(rows[1..]));
  }

  lemma {:induction false} PackedRows(bytes: Packet, at: nat, rows: seq<Row>)
    requires AllPackable(rows) && Holds(bytes, at, PackRows(rows))
    ensures RowsAt(bytes, at, rows)
    decreases |rows|
  {
    if rows != [] {
      FirstRow(bytes, at, rows);
      PackedRows(bytes, at + 8 + 4 * |rows[0].targets|, rows[1..]);
    }
  }

  lemma {:induction false} PackedRow(bytes: Packet, at: nat, row: Row, rest: Packet)
    requires Packable(row) && Holds(bytes, at, PackRow(row) + rest)
    ensures GetU32(bytes, at) == Some(row.id) && GetU32(bytes, at + 4) == Some(|row.targets|)
    ensures WordsAt(bytes, at + 8, row.targets) && Holds(bytes, at + 8 + 4 * |row.targets|, rest)
  {
    var size, targets := U32(|row.targets|), U32s(row.targets);
    Assoc4(U32(row.id), size, targets, rest);
    HoldsWord(bytes, at, row.id, size + (targets + rest));
    HoldsWord(bytes, at + 4, |row.targets|, targets + rest);
    PackedWords(bytes, at + 8, row.targets, rest);
  }

  /** marked is row with the targets added. */
  predicate Marks(row: seq<bool>, targets: seq<int>, marked: seq<bool>) {
    |marked| == |row| && forall j | 0 <= j < |row| :: marked[j] <==> row[j] || j in targets
  }

  lemma {:induction false} MarkWords(bytes: Packet, at: nat, targets: seq<int>, code: nat, row: seq<bool>)
    requires forall k | 0 <= k < |targets| :: 0 <= targets[k] < |row|
    requires WordsAt(bytes, at, targets)
    ensures MarkTargets(bytes, at, |targets|, code, row).0 == Loaded
    ensures Marks(row, targets, MarkTargets(bytes, at, |targets|, code, row).1)
    decreases |targets|
  {
    if targets != [] {
      var next := row[targets[0] := true];
      MarkWords(bytes, at + 4, targets[1..], code, next);
      MarksBoth(row, targets, MarkTargets(bytes, at + 4, |targets| - 1, code, next).1);
    }
  }

  lemma {:induction false} MarksBoth(row: seq<bool>, targets: seq<int>, marked: seq<bool>)
    requires targets != [] && 0 <= targets[0] < |row|
    requires Marks(row[targets[0] := true], targets[1..], marked)
    ensures Marks(row, targets, marked)
  {
    assert targets == [targets[0]] + targets[1..];
  }

  predicate Names(rows: seq<Row>, i: nat) {
    exists k | 0 <= k < |rows| :: rows[k].id == i
  }

  predicate Links(rows: seq<Row>, i: nat, j: nat) {
    exists k | 0 <= k < |rows| :: rows[k].id == i && j in rows[k].targets
  }

  /** Every id and target of the rows is an index of an n by n table. */
  predicate WithinTable(rows: seq<Row>, n: nat) {
    forall k | 0 <= k < |rows| ::
      0 <= rows[k].id < n && forall t | 0 <= t < |rows[k].targets| :: 0 <= rows[k].targets[t] < n
  }

  /** after is before with the rows added: their edges, no other edge, and no other row. */
  ghost predicate Adds(before: Matrix, rows: seq<Row>, after: Matrix) {
    && |after| == |before| && SquareMatrix(after, |after|)
    && (forall i: nat | i < |after| :: after[i].Some? <==> before[i].Some? || Names(rows, i))
    && (forall i: nat, j: nat :: Edge(after, i, j) <==> Edge(before, i, j) || Links(rows, i, j))
  }

  lemma {:induction false} AddsRow(m: Matrix, row: Row, marked: seq<bool>)
    requires SquareMatrix(m, |m|) && 0 <= row.id < |m| && WithinTable([row], |m|)
    requires |marked| == |m|
    requires var before := if m[row.id].Some? then m[row.id].value else NoRow(|m|);
             forall j | 0 <= j < |m| :: marked[j] <==> before[j] || j in row.targets
    ensures Adds(m, [row], m[row.id := Some(marked)])
  {
    var after := m[row.id := Some(marked)];
    forall i: nat, j: nat ensures Edge(after, i, j) <==> Edge(m, i, j) || Links([row], i, j) {
      assert Links([row], i, j) <==> row.id == i && j in row.targets by {
        assert [row][0] == row;
      }
      if i == row.id && j in row.targets {
        var t :| 0 <= t < |row.targets| && row.targets[t] == j;
        assert [row][0].targets[t] < |m|;
      }
    }
    forall i: nat | i < |after| ensures after[i].Some? <==> m[i].Some? || Names([row], i) {
      assert [row][0] == row;
    }
  }

  lemma {:induction false} AddsBoth(a: Matrix, row: Row, b: Matrix, rows: seq<Row>, c: Matrix)
    requires Adds(a, [row], b) && Adds(b, rows, c)
    ensures Adds(a, [row] + rows, c)
  {
    forall i: nat, j: nat ensures Links([row] + rows, i, j) <==> Links([row], i, j) || Links(rows, i, j) {
      LinksOfBoth(row, rows, i, j);
    }
    forall i: nat | i < |c| ensures c[i].Some? <==> a[i].Some? || Names([row] + rows, i) {
      NamesOfBoth(row, rows, i);
    }
  }

  lemma {:induction false} LinksOfBoth(row: Row, rows: seq<Row>, i: nat, j: nat)
    ensures Links([row] + rows, i, j) <==> Links([row], i, j) || Links(rows, i, j)
  {
    var all := [row] + rows;
    assert all[0] == row == [row][0];
    assert forall k | 0 <= k < |rows| :: all[k + 1] == rows[k];
    if Links(all, i, j) {
      var k :| 0 <= k < |all| && all[k].id == i && j in all[k].targets;
      assert k > 0 ==> all[k] == rows[k - 1];
    }
  }

  lemma {:induction false} NamesOfBoth(row: Row, rows: seq<Row>, i: nat)
    ensures Names([row] + rows, i) <==> Names([row], i) || Names(rows, i)
  {
    var all := [row] + rows;
    assert all[0] == row == [row][0];
    assert forall k | 0 <= k < |rows| :: all[k + 1] == rows[k];
    if Names(all, i) {
      var k :| 0 <= k < |all| && all[k].id == i;
      assert k > 0 ==> all[k] == rows[k - 1];
    }
  }

  lemma {:induction false} LoadOneRow(section: Section, bytes: Packet, at: nat, row: Row, m: Matrix)
    returns (after: Matrix)
    requires WithinTable([row], |m|) && SquareMatrix(m, |m|)
    requires GetU32(bytes, at) == Some(row.id) && GetU32(bytes, at + 4) == Some(|row.targets|)
    requires WordsAt(bytes, at + 8, row.targets)
    requires 0 <= row.id < |m| && (section.once ==> m[row.id].None?)
    ensures LoadRow(section, bytes, at, m) == Record(Loaded, after, at + 8 + 4 * |row.targets|)
    ensures Adds(m, [row], after)
  {
    assert [row][0] == row;
    var before := if m[row.id].Some? then m[row.id].value else NoRow(|m|);
    MarkWords(bytes, at + 8, row.targets, section.badTarget, before);
    var marked := MarkTargets(bytes, at + 8, |row.targets|, section.badTarget, before).1;
    after := m[row.id := Some(marked)];
    AddsRow(m, row, marked);
  }

  /** The rows are read back one after the other. */
  lemma {:induction false} LoadRowsAt(section: Section, bytes: Packet, at: nat, rows: seq<Row>, m: Matrix)
    requires WithinTable(rows, |m|) && SquareMatrix(m, |m|)
    requires section.once ==> DistinctIds(rows) && forall k | 0 <= k < |rows| :: m[rows[k].id].None?
    requires RowsAt(bytes, at, rows)
    ensures LoadRows(section, bytes, at, |rows|, m).0 == Loaded
    ensures Adds(m, rows, LoadRows(section, bytes, at, |rows|, m).1)
    decreases |rows|
  {
    if rows != [] {
      var row, tail := rows[0], rows[1..];
      assert WithinTable([row], |m|);
      var after := LoadOneRow(section, bytes, at, row, m);
      StillFree(section, rows, m, after);
      LoadRowsAt(section, bytes, at + 8 + 4 * |row.targets|, tail, after);
      AddsBoth(m, row, after, tail, LoadRows(section, bytes, at, |rows|, m).1);
      assert rows == [row] + tail;
    }
  }

  lemma {:induction false} StillFree(section: Section, rows: seq<Row>, m: Matrix, after: Matrix)
    requires rows != [] && WithinTable(rows, |m|) && Adds(m, [rows[0]], after)
    requires section.once ==> DistinctIds(rows) && forall k | 0 <= k < |rows| :: m[rows[k].id].None?
    ensures WithinTable(rows[1..], |after|)
    ensures section.once ==> DistinctIds(rows[1..]) && forall k | 0 <= k < |rows[1..]| :: after[rows[1..][k].id].None?
  {
    var tail := rows[1..];
    assert forall k | 0 <= k < |tail| :: tail[k] == rows[k + 1];
    if section.once {
      forall k | 0 <= k < |tail| ensures after[tail[k].id].None? {
        assert m[rows[k + 1].id].None? && rows[0].id != rows[k + 1].id;
        assert !Names([rows[0]], tail[k].id);
      }
    }
  }

  lemma {:induction false} PackedRowsLoad(section: Section, bytes: Packet, at: nat, rows: seq<Row>, n: nat)
    requires AllPackable(rows) && WithinTable(rows, n) && (section.once ==> DistinctIds(rows))
    requires Holds(bytes, at, PackRows(rows))
    ensures LoadRows(section, bytes, at, |rows|, NoMatrix(n)).0 == Loaded
    ensures Adds(NoMatrix(n), rows, LoadRows(section, bytes, at, |rows|, NoMatrix(n)).1)
  {
    PackedRows(bytes, at, rows);
    LoadRowsAt(section, bytes, at, rows, NoMatrix(n));
  }

  /** The call graph: one row per caller, and exactly the packed edges. */
  lemma {:induction false} CallGraphRoundTrip(rows: seq<Row>, n: nat)
    requires IsWord(|rows|) && AllPackable(rows) && DistinctIds(rows) && WithinTable(rows, n)
    ensures var bytes := PackCallgraph(rows);
            && GetU32(bytes, 0) == Some(|rows|)
            && LoadRows(CALLS, bytes, 4, |rows|, NoMatrix(n)).0 == Loaded
            && Adds(NoMatrix(n), rows, LoadRows(CALLS, bytes, 4, |rows|, NoMatrix(n)).1)
  {
    HoldsWord(PackCallgraph(rows), 0, |rows|, PackRows(rows));
    PackedRowsLoad(CALLS, PackCallgraph(rows), 4, rows, n);
  }

  /** The control-flow graph of a function that has none yet. */
  lemma {:induction false} BlocksRoundTrip(f: nat, nbBlocks: nat, rows: seq<Row>, fs: seq<FunctionData>)
    requires f < |fs| && fs[f].nbBlocks == 0 && nbBlocks > 0
    requires IsWord(f) && IsWord(nbBlocks) && IsWord(|rows|) && AllPackable(rows) && WithinTable(rows, nbBlocks)
    ensures var (status, after) := LoadBlocks(PackBlocks(f, nbBlocks, rows), fs);
            && status == Loaded && |after| == |fs|
            && (forall g | 0 <= g < |fs| && g != f :: after[g] == fs[g])
            && after[f].name == fs[f].name && after[f].flags == fs[f].flags
            && after[f].nbBlocks == nbBlocks && WellFormedFunction(after[f])
            && Adds(NoMatrix(nbBlocks), rows, after[f].controlFlowGraph)
  {
    var bytes := PackBlocks(f, nbBlocks, rows);
    var body := PackRows(rows);
    Assoc4(U32(f), U32(nbBlocks), U32(|rows|), body);
    HoldsWord(bytes, 0, f, U32(nbBlocks) + (U32(|rows|) + body));
    HoldsWord(bytes, 4, nbBlocks, U32(|rows|) + body);
    HoldsWord(bytes, 8, |rows|, body);
    PackedRowsLoad(JUMPS, bytes, 12, rows, nbBlocks);
  }

  // ----- The function table

  function CountFlag(entries: seq<Entry>, flag: Flag): nat {
    if entries == [] then 0 else (if entries[0].flag == flag then 1 else 0) + CountFlag(entries[1..], flag)
  }

  predicate DistinctEntries(entries: seq<Entry>) {
    forall i, j | 0 <= i < j < |entries| :: entries[i].id != entries[j].id
  }

  predicate EntriesAt(bytes: Packet, at: nat, entries: seq<Entry>)
    decreases |entries|
  {
    entries != [] ==>
      && GetU32(bytes, at) == Some(entries[0].id) && GetU32(bytes, at + 4) == Some(FlagToInt(entries[0].flag))
      && GetString(bytes, at + 8) == Some(entries[0].name)
      && EntriesAt(bytes, at + 8 + |entries[0].name| + 1, entries[1..])
  }

  lemma {:induction false} PackedEntries(bytes: Packet, at: nat, entries: seq<Entry>)
    requires AllEntries(entries) && Holds(bytes, at, PackEntries(entries))
    ensures EntriesAt(bytes, at, entries)
    decreases |entries|
  {
    if entries != [] {
      PackedEntry(bytes, at, entries[0], PackEntries(entries[1..]));
      PackedEntries(bytes, at + 8 + |entries[0].name| + 1, entries[1..]);
    }
  }

  lemma {:induction false} PackedEntry(bytes: Packet, at: nat, e: Entry, rest: Packet)
    requires IsWord(e.id) && IsName(e.name) && Holds(bytes, at, PackEntry(e) + rest)
    ensures GetU32(bytes, at) == Some(e.id) && GetU32(bytes, at + 4) == Some(FlagToInt(e.flag))
    ensures GetString(bytes, at + 8) == Some(e.name) && Holds(bytes, at + 8 + |e.name| + 1, rest)
  {
    var flag, name := U32(FlagToInt(e.flag)), CString(e.name);
    Assoc4(U32(e.id), flag, name, rest);
    HoldsWord(bytes, at, e.id, flag + (name + rest));
    HoldsWord(bytes, at + 4, FlagToInt(e.flag), name + rest);
    HoldsString(bytes, at + 8, e.name, rest);
  }

  /** after is before with the entries in their slots and counted. */
  ghost predicate Fills(before: FunctionTable, entries: seq<Entry>, after: FunctionTable) {
    && |after.functions| == |before.functions|
    && (forall k | 0 <= k < |entries| :: entries[k].id < |after.functions| &&
          after.functions[entries[k].id] == FunctionData(entries[k].name, entries[k].flag, 0, [], []))
    && (forall f | 0 <= f < |after.functions| && (forall k | 0 <= k < |entries| :: entries[k].id != f) ::
          after.functions[f] == before.functions[f])
    && after.inits == before.inits + CountFlag(entries, Init)
    && after.finis == before.finis + CountFlag(entries, Fini)
  }

  lemma {:induction false} LoadEntriesAt(bytes: Packet, at: nat, entries: seq<Entry>, t: FunctionTable)
    requires DistinctEntries(entries) && EntriesAt(bytes, at, entries)
    requires forall k | 0 <= k < |entries| :: entries[k].id < |t.functions|
    ensures LoadEntries(bytes, at, |entries|, t).0 == Loaded
    ensures Fills(t, entries, LoadEntries(bytes, at, |entries|, t).1)
    decreases |entries|
  {
    if entries != [] {
      var e, tail := entries[0], entries[1..];
      LoadEntryIs(bytes, at, e, t);
      assert forall k | 0 <= k < |tail| :: tail[k] == entries[k + 1];
      LoadEntriesAt(bytes, at + 8 + |e.name| + 1, tail, AddEntry(t, e));
      FillsBoth(t, entries, LoadEntries(bytes, at, |entries|, t).1);
    }
  }

  lemma {:induction false} LoadEntryIs(bytes: Packet, at: nat, e: Entry, t: FunctionTable)
    requires GetU32(bytes, at) == Some(e.id) && GetU32(bytes, at + 4) == Some(FlagToInt(e.flag))
    requires GetString(bytes, at + 8) == Some(e.name) && e.id < |t.functions|
    ensures LoadEntry(bytes, at, t) == Record(Loaded, AddEntry(t, e), at + 8 + |e.name| + 1)
  {
    assert IntToFlag(FlagToInt(e.flag)) == e.flag;
  }

  lemma {:induction false} FillsBoth(t: FunctionTable, entries: seq<Entry>, after: FunctionTable)
    requires entries != [] && DistinctEntries(entries)
    requires entries[0].id < |t.functions|
    requires Fills(AddEntry(t, entries[0]), entries[1..], after)
    ensures Fills(t, entries, after)
  {
    var tail := entries[1..];
    var mid := AddEntry(t, entries[0]);
    assert forall k | 0 <= k < |tail| :: tail[k] == entries[k + 1];
    forall k | 0 <= k < |entries|
      ensures after.functions[entries[k].id] == FunctionData(entries[k].name, entries[k].flag, 0, [], [])
    {
      if k > 0 {
        assert entries[k] == tail[k - 1];
      }
    }
    forall f | 0 <= f < |t.functions| && (forall k | 0 <= k < |entries| :: entries[k].id != f)
      ensures after.functions[f] == t.functions[f]
    {
      assert entries[0].id != f && forall k | 0 <= k < |tail| :: tail[k].id == entries[k + 1].id != f;
      assert mid.functions[f] == t.functions[f];
    }
  }

  /** The ids are 0 to n-1, each once. */
  ghost predicate Numbered(entries: seq<Entry>) {
    DistinctEntries(entries) && forall k | 0 <= k < |entries| :: entries[k].id < |entries|
  }

  predicate HasId(entries: seq<Entry>, f: nat) {
    exists k | 0 <= k < |entries| :: entries[k].id == f
  }

  /** Every slot of the function table is filled, with the name and flag packed for it, and the
      counters are the numbers of Init and Fini entries. */
  lemma {:induction false} FunctionTableRoundTrip(entries: seq<Entry>)
    requires IsWord(|entries|) && AllEntries(entries) && Numbered(entries)
    ensures GetU32(PackFctids(entries), 0) == Some(|entries|)
    ensures var n := |entries|;
            var empty := FunctionTable(NoFunctions(n), 0, 0);
            var (status, t) := LoadEntries(PackFctids(entries), 4, n, empty);
            status == Loaded && Fills(empty, entries, t)
    ensures forall f: nat :: HasId(entries, f) <==> f < |entries|
  {
    var bytes := PackFctids(entries);
    HoldsWord(bytes, 0, |entries|, PackEntries(entries));
    PackedEntries(bytes, 4, entries);
    LoadEntriesAt(bytes, 4, entries, FunctionTable(NoFunctions(|entries|), 0, 0));
    EveryIdIsThere(entries);
  }

  /** n distinct numbers below n are all the numbers below n. */
  lemma {:induction false} EveryIdIsThere(entries: seq<Entry>)
    requires Numbered(entries)
    ensures forall f: nat :: HasId(entries, f) <==> f < |entries|
  {
    var n := |entries|;
    var ids := IdsOf(entries, n);
    var all := Below(n);
    SubsetOfSameSize(ids, all);
    forall f: nat ensures HasId(entries, f) <==> f < n {
      assert f in ids <==> f in all;
    }
  }

  lemma {:induction false} SubsetOfSameSize(a: set<nat>, b: set<nat>)
    requires a <= b && |a| == |b|
    ensures a == b
  {
    assert b == a + (b - a);
    assert |b| == |a| + |b - a|;
  }

  lemma {:induction false} IdsOf(entries: seq<Entry>, n: nat) returns (ids: set<nat>)
    requires n <= |entries| && DistinctEntries(entries)
    ensures |ids| == n
    ensures forall i :: i in ids <==> exists k | 0 <= k < n :: entries[k].id == i
    decreases n
  {
    if n == 0 {
      ids := {};
    } else {
      var fewer := IdsOf(entries, n - 1);
      ids := fewer + {entries[n - 1].id};
    }
  }

  lemma {:induction false} Below(n: nat) returns (all: set<nat>)
    ensures |all| == n && forall i :: i in all <==> 0 <= i < n
    decreases n
  {
    if n == 0 {
      all := {};
    } else {
      var fewer := Below(n - 1);
      all := fewer + {n - 1};
    }
  }

  // ----- Post-dominators

  /** The lines are about existing blocks of functions that have a block table. */
  predicate IpdsWithin(ipds: seq<Ipd>, fs: seq<FunctionData>) {
    forall k | 0 <= k < |ipds| ::
      && ipds[k].fn < |fs| && ipds[k].block < fs[ipds[k].fn].nbBlocks
      && |fs[ipds[k].fn].immediatePostDominator| == fs[ipds[k].fn].nbBlocks
  }

  /** The last line about a block decides its post-dominator. */
  function LastIpd(ipds: seq<Ipd>, f: nat, b: nat, default: nat): nat {
    if ipds == [] then default
    else LastIpd(ipds[1..], f, b, if (ipds[0].fn, ipds[0].block) == (f, b) then ipds[0].dominator else default)
  }

  predicate IpdsAt(bytes: Packet, at: nat, ipds: seq<Ipd>)
    decreases |ipds|
  {
    ipds != [] ==>
      && GetU32(bytes, at) == Some(ipds[0].fn) && GetU32(bytes, at + 4) == Some(ipds[0].block)
      && GetU32(bytes, at + 8) == Some(ipds[0].dominator)
      && IpdsAt(bytes, at + 16, ipds[1..])
  }

  lemma {:induction false} PackedIpds(bytes: Packet, at: nat, ipds: seq<Ipd>)
    requires AllIpds(ipds) && Holds(bytes, at, PackIpds(ipds))
    ensures IpdsAt(bytes, at, ipds)
    decreases |ipds|
  {
    if ipds != [] {
      var e, tail := ipds[0], PackIpds(ipds[1..]);
      var b, d, l := U32(e.block), U32(e.dominator), U32(e.last);
      Assoc4(U32(e.fn) + b, d, l, tail);
      Assoc3(U32(e.fn), b, d + (l + tail));
      HoldsWord(bytes, at, e.fn, b + (d + (l + tail)));
      HoldsWord(bytes, at + 4, e.block, d + (l + tail));
      HoldsWord(bytes, at + 8, e.dominator, l + tail);
      HoldsWord(bytes, at + 12, e.last, tail);
      PackedIpds(bytes, at + 16, ipds[1..]);
    }
  }

  /** after is before, except that each block has the post-dominator of the last line about it. */
  ghost predicate Dominates(before: seq<FunctionData>, ipds: seq<Ipd>, after: seq<FunctionData>) {
    && |after| == |before|
    && forall f | 0 <= f < |before| ::
         && after[f] == before[f].(immediatePostDominator := after[f].immediatePostDominator)
         && |after[f].immediatePostDominator| == |before[f].immediatePostDominator|
         && forall b | 0 <= b < |before[f].immediatePostDominator| ::
              after[f].immediatePostDominator[b] == LastIpd(ipds, f, b, before[f].immediatePostDominator[b])
  }

  lemma {:induction false} LoadIpdsAt(bytes: Packet, at: nat, ipds: seq<Ipd>, fs: seq<FunctionData>)
    requires IpdsWithin(ipds, fs) && IpdsAt(bytes, at, ipds)
    ensures LoadIpds(bytes, at, |ipds|, fs).0 == Loaded
    ensures Dominates(fs, ipds, LoadIpds(bytes, at, |ipds|, fs).1)
    decreases |ipds|
  {
    if ipds != [] {
      var e, tail := ipds[0], ipds[1..];
      var next := fs[e.fn := SetIpd(fs[e.fn], e.block, e.dominator)];
      assert LoadIpd(bytes, at, fs) == Record(Loaded, next, at + 16);
      assert forall k | 0 <= k < |tail| :: tail[k] == ipds[k + 1];
      LoadIpdsAt(bytes, at + 16, tail, next);
      DominatesBoth(fs, ipds, LoadIpds(bytes, at, |ipds|, fs).1);
    }
  }

  lemma {:induction false} DominatesBoth(fs: seq<FunctionData>, ipds: seq<Ipd>, after: seq<FunctionData>)
    requires ipds != [] && IpdsWithin(ipds, fs)
    requires Dominates(fs[ipds[0].fn := SetIpd(fs[ipds[0].fn], ipds[0].block, ipds[0].dominator)], ipds[1..], after)
    ensures Dominates(fs, ipds, after)
  {
    var e := ipds[0];
    var next := fs[e.fn := SetIpd(fs[e.fn], e.block, e.dominator)];
    forall f, b | 0 <= f < |fs| && 0 <= b < |fs[f].immediatePostDominator|
      ensures after[f].immediatePostDominator[b] == LastIpd(ipds, f, b, fs[f].immediatePostDominator[b])
    {
      assert next[f].immediatePostDominator[b] ==
             if (e.fn, e.block) == (f, b) then e.dominator else fs[f].immediatePostDominator[b];
    }
  }

  /** Loading the packed post-dominator table succeeds and changes nothing but post-dominators. */
  lemma {:induction false} IpdRoundTrip(ipds: seq<Ipd>, fs: seq<FunctionData>)
    requires IsWord(|ipds|) && AllIpds(ipds) && IpdsWithin(ipds, fs)
    ensures GetU32(PackBlockIpd(ipds), 0) == Some(|ipds|)
    ensures LoadIpds(PackBlockIpd(ipds), 4, |ipds|, fs).0 == Loaded
    ensures Dominates(fs, ipds, LoadIpds(PackBlockIpd(ipds), 4, |ipds|, fs).1)
  {
    var bytes := PackBlockIpd(ipds);
    HoldsWord(bytes, 0, |ipds|, PackIpds(ipds));
    PackedIpds(bytes, 4, ipds);
    LoadIpdsAt(bytes, 4, ipds, fs);
  }

  /** The lines are about functions of the table, some of which have no blocks in it. */
  predicate IpdsWithinSome(ipds: seq<Ipd>, fs: seq<FunctionData>) {
    forall k | 0 <= k < |ipds| ::
      && ipds[k].fn < |fs|
      && (fs[ipds[k].fn].nbBlocks == 0 || ipds[k].block < fs[ipds[k].fn].nbBlocks)
      && |fs[ipds[k].fn].immediatePostDominator| == fs[ipds[k].fn].nbBlocks
  }

  predicate AboutNoTable(ipds: seq<Ipd>, fs: seq<FunctionData>) {
    exists k :: 0 <= k < |ipds| && ipds[k].fn < |fs| && fs[ipds[k].fn].nbBlocks == 0
  }

  lemma {:induction false} LoadIpdsStops(bytes: Packet, at: nat, ipds: seq<Ipd>, fs: seq<FunctionData>)
    requires IpdsWithinSome(ipds, fs) && AboutNoTable(ipds, fs) && IpdsAt(bytes, at, ipds)
    ensures LoadIpds(bytes, at, |ipds|, fs).0 == Error(4)
    decreases |ipds|
  {
    var e, tail := ipds[0], ipds[1..];
    if fs[e.fn].nbBlocks > 0 {
      var next := fs[e.fn := SetIpd(fs[e.fn], e.block, e.dominator)];
      assert LoadIpd(bytes, at, fs) == Record(Loaded, next, at + 16);
      var k :| 0 <= k < |ipds| && ipds[k].fn < |fs| && fs[ipds[k].fn].nbBlocks == 0;
      assert tail[k - 1] == ipds[k];
      assert forall i | 0 <= i < |tail| :: tail[i] == ipds[i + 1];
      LoadIpdsStops(bytes, at + 16, tail, next);
    }
  }

  /** A line about a function that has no block table stops the loading with error 4. */
  lemma {:induction false} IpdWithoutTable(ipds: seq<Ipd>, fs: seq<FunctionData>)
    requires IsWord(|ipds|) && AllIpds(ipds) && IpdsWithinSome(ipds, fs) && AboutNoTable(ipds, fs)
    ensures GetU32(PackBlockIpd(ipds), 0) == Some(|ipds|)
    ensures LoadIpds(PackBlockIpd(ipds), 4, |ipds|, fs).0 == Error(4)
  {
    var bytes := PackBlockIpd(ipds);
    HoldsWord(bytes, 0, |ipds|, PackIpds(ipds));
    PackedIpds(bytes, 4, ipds);
    LoadIpdsStops(bytes, 4, ipds, fs);
  }
}
