/**
 With which error the loaders refuse a packed section whose numbers are not those of an n-function or
 n-block table.
 */
module LoaderErrors {
  import opened Wrappers
  import opened MonitorTables
  import opened Bytes
  import opened Packing
  import opened Loader
  import opened LoaderRoundTrip

  predicate AllUnder(targets: seq<int>, n: nat) {
    forall t | 0 <= t < |targets| :: targets[t] < n
  }

  lemma {:induction false} AllUnderTail(targets: seq<int>, n: nat)
    requires targets != []
    ensures AllUnder(targets, n) <==> targets[0] < n && AllUnder(targets[1..], n)
  {
    var tail := targets[1..];
    assert forall t | 0 <= t < |tail| :: tail[t] == targets[t + 1];
    if targets[0] < n && AllUnder(tail, n) {
      assert forall t | 0 < t < |targets| :: targets[t] == tail[t - 1];
    }
  }

  lemma {:induction false} MarkStatus(bytes: Packet, at: nat, targets: seq<int>, code: nat, row: seq<bool>)
    requires WordsAt(bytes, at, targets)
    ensures MarkTargets(bytes, at, |targets|, code, row).0 ==
            if AllUnder(targets, |row|) then Loaded else Error(code)
    ensures |MarkTargets(bytes, at, |targets|, code, row).1| == |row|
    decreases |targets|
  {
    if targets != [] {
      AllUnderTail(targets, |row|);
      if targets[0] < |row| {
        MarkStatus(bytes, at + 4, targets[1..], code, row[targets[0] := true]);
      }
    }
  }

  // ----- The call table

  /** The rows are about functions below n, each at most once, and none that the table has already. */
  predicate FitCalls(rows: seq<Row>, m: Matrix) {
    && DistinctIds(rows)
    && forall k | 0 <= k < |rows| ::
         rows[k].id < |m| && AllUnder(rows[k].targets, |m|) && (0 <= rows[k].id ==> m[rows[k].id].None?)
  }

  lemma {:induction false} CallRowsStatus(bytes: Packet, at: nat, rows: seq<Row>, m: Matrix)
    requires RowsAt(bytes, at, rows) && AllPackable(rows) && SquareMatrix(m, |m|)
    ensures LoadRows(CALLS, bytes, at, |rows|, m).0 == if FitCalls(rows, m) then Loaded else Error(3)
    decreases |rows|
  {
    if rows != [] {
      var row, tail := rows[0], rows[1..];
      FirstCallRow(rows, m);
      if row.id < |m| && m[row.id].None? {
        MarkStatus(bytes, at + 8, row.targets, 3, NoRow(|m|));
        if AllUnder(row.targets, |m|) {
          var next := LoadRow(CALLS, bytes, at, m).table;
          CallRowsStatus(bytes, at + 8 + 4 * |row.targets|, tail, next);
          NextFits(rows, m, next);
        }
      }
    }
  }

  lemma {:induction false} FirstCallRow(rows: seq<Row>, m: Matrix)
    requires rows != [] && AllPackable(rows)
    ensures Packable(rows[0]) && AllPackable(rows[1..])
    ensures FitCalls(rows, m) ==> rows[0].id < |m| && m[rows[0].id].None? && AllUnder(rows[0].targets, |m|)
  {
    var tail := rows[1..];
    assert Packable(rows[0]);
    assert forall k | 0 <= k < |tail| :: tail[k] == rows[k + 1];
  }

  lemma {:induction false} NextFits(rows: seq<Row>, m: Matrix, next: Matrix)
    requires rows != [] && AllPackable(rows) && rows[0].id < |m| && m[rows[0].id].None?
    requires AllUnder(rows[0].targets, |m|)
    requires |next| == |m| && next[rows[0].id].Some?
    requires forall i | 0 <= i < |m| && i != rows[0].id :: next[i] == m[i]
    ensures FitCalls(rows, m) <==> FitCalls(rows[1..], next)
  {
    var tail := rows[1..];
    assert forall k | 0 <= k < |tail| :: tail[k] == rows[k + 1] && Packable(rows[k + 1]);
    if FitCalls(tail, next) {
      forall k | 0 < k < |rows|
        ensures rows[k].id < |m| && AllUnder(rows[k].targets, |m|) && m[rows[k].id].None? && rows[k].id != rows[0].id
      {
        assert rows[k] == tail[k - 1] && Packable(rows[k]);
      }
    }
    if FitCalls(rows, m) {
      forall k | 0 <= k < |tail|
        ensures tail[k].id < |m| && AllUnder(tail[k].targets, |m|) && next[tail[k].id].None?
      {
        assert tail[k] == rows[k + 1] && Packable(rows[k + 1]);
      }
    }
  }

  /** A packed call table of an n-function binary loads, or is refused with error 3. */
  lemma {:induction false} CallTableStatus(rows: seq<Row>, n: nat)
    requires IsWord(|rows|) && AllPackable(rows)
    ensures LoadRows(CALLS, PackCallgraph(rows), 4, |rows|, NoMatrix(n)).0 ==
            if DistinctIds(rows) && WithinTable(rows, n) then Loaded else Error(3)
  {
    HoldsWord(PackCallgraph(rows), 0, |rows|, PackRows(rows));
    PackedRows(PackCallgraph(rows), 4, rows);
    CallRowsStatus(PackCallgraph(rows), 4, rows, NoMatrix(n));
    FitNewTable(rows, n);
  }

  lemma {:induction false} FitNewTable(rows: seq<Row>, n: nat)
    requires AllPackable(rows)
    ensures FitCalls(rows, NoMatrix(n)) <==> DistinctIds(rows) && WithinTable(rows, n)
  {
    assert forall k | 0 <= k < |rows| :: Packable(rows[k]);
  }

  // ----- The block tables

  predicate FitsTable(row: Row, n: nat) {
    row.id < n && AllUnder(row.targets, n)
  }

  /** Row k is the first that does not fit the table. */
  predicate FirstUnfit(rows: seq<Row>, n: nat, k: nat) {
    k < |rows| && !FitsTable(rows[k], n) && forall j | 0 <= j < k :: FitsTable(rows[j], n)
  }

  predicate AllFit(rows: seq<Row>, n: nat) {
    forall k | 0 <= k < |rows| :: FitsTable(rows[k], n)
  }

  lemma {:induction false} AllFitTail(rows: seq<Row>, n: nat)
    requires rows != [] && FitsTable(rows[0], n)
    ensures AllFit(rows, n) <==> AllFit(rows[1..], n)
    ensures forall k: nat | FirstUnfit(rows, n, k) :: k > 0 && FirstUnfit(rows[1..], n, k - 1)
  {
    var tail := rows[1..];
    assert forall k | 0 <= k < |tail| :: tail[k] == rows[k + 1];
    if AllFit(tail, n) {
      assert forall k | 0 < k < |rows| :: rows[k] == tail[k - 1];
    }
  }

  lemma {:induction false} NextJumps(bytes: Packet, at: nat, rows: seq<Row>, m: Matrix)
    requires rows != [] && RowsAt(bytes, at, rows) && AllPackable(rows) && SquareMatrix(m, |m|)
    ensures AllPackable(rows[1..])
    ensures var record := LoadRow(JUMPS, bytes, at, m);
            if FitsTable(rows[0], |m|) then
              && record.status == Loaded && SquareMatrix(record.table, |m|) && RowsAt(bytes, record.next, rows[1..])
            else record.status == Error(if rows[0].id >= |m| then 7 else 10)
  {
    var row, tail := rows[0], rows[1..];
    assert Packable(row);
    assert forall k | 0 <= k < |tail| :: tail[k] == rows[k + 1];
    if row.id < |m| {
      MarkStatus(bytes, at + 8, row.targets, 10, if m[row.id].Some? then m[row.id].value else NoRow(|m|));
    }
  }

  lemma {:induction false} JumpRowsStatus(bytes: Packet, at: nat, rows: seq<Row>, m: Matrix)
    requires RowsAt(bytes, at, rows) && AllPackable(rows) && SquareMatrix(m, |m|)
    ensures LoadRows(JUMPS, bytes, at, |rows|, m).0 == Loaded <==> AllFit(rows, |m|)
    ensures forall k: nat | FirstUnfit(rows, |m|, k) ::
              LoadRows(JUMPS, bytes, at, |rows|, m).0 == Error(if rows[k].id >= |m| then 7 else 10)
    decreases |rows|
  {
    if rows != [] {
      NextJumps(bytes, at, rows, m);
      var record := LoadRow(JUMPS, bytes, at, m);
      if FitsTable(rows[0], |m|) {
        AllFitTail(rows, |m|);
        JumpRowsStatus(bytes, record.next, rows[1..], record.table);
      }
    }
  }

  /** With which error a packed block table is refused: 3 for a function that the binary does not have, 4
      for a second table of a function, 5 for a table of no block, and otherwise by the first row that does
      not fit: 7 if it is about a block that does not exist, 10 if it jumps to one. */
  lemma {:induction false} BlockTableStatus(f: nat, nbBlocks: nat, rows: seq<Row>, fs: seq<FunctionData>)
    requires IsWord(f) && IsWord(nbBlocks) && IsWord(|rows|) && AllPackable(rows)
    ensures var status := LoadBlocks(PackBlocks(f, nbBlocks, rows), fs).0;
            && (status == Loaded <==> f < |fs| && fs[f].nbBlocks == 0 && nbBlocks > 0 && AllFit(rows, nbBlocks))
            && (f >= |fs| ==> status == Error(3))
            && (f < |fs| && fs[f].nbBlocks != 0 ==> status == Error(4))
            && (f < |fs| && fs[f].nbBlocks == 0 && nbBlocks == 0 ==> status == Error(5))
            && (f < |fs| && fs[f].nbBlocks == 0 && nbBlocks > 0 ==>
                  forall k: nat | FirstUnfit(rows, nbBlocks, k) ::
                    status == Error(if rows[k].id >= nbBlocks then 7 else 10))
  {
    HeaderOfBlocks(f, nbBlocks, rows);
    JumpRowsStatus(PackBlocks(f, nbBlocks, rows), 12, rows, NoMatrix(nbBlocks));
  }

  lemma {:induction false} HeaderOfBlocks(f: nat, nbBlocks: nat, rows: seq<Row>)
    requires IsWord(f) && IsWord(nbBlocks) && IsWord(|rows|) && AllPackable(rows)
    ensures var bytes := PackBlocks(f, nbBlocks, rows);
            && GetU32(bytes, 0) == Some(f) && GetU32(bytes, 4) == Some(nbBlocks) && GetU32(bytes, 8) == Some(|rows|)
            && RowsAt(bytes, 12, rows)
  {
    var bytes := PackBlocks(f, nbBlocks, rows);
    var body := PackRows(rows);
    Assoc4(U32(f), U32(nbBlocks), U32(|rows|), body);
    HoldsWord(bytes, 0, f, U32(nbBlocks) + (U32(|rows|) + body));
    HoldsWord(bytes, 4, nbBlocks, U32(|rows|) + body);
    HoldsWord(bytes, 8, |rows|, body);
    PackedRows(bytes, 12, rows);
  }

  // ----- The function table

  predicate IdsUnder(entries: seq<Entry>, n: nat) {
    forall k | 0 <= k < |entries| :: entries[k].id < n
  }

  lemma {:induction false} IdsUnderTail(entries: seq<Entry>, n: nat)
    requires entries != []
    ensures IdsUnder(entries, n) <==> entries[0].id < n && IdsUnder(entries[1..], n)
  {
    var tail := entries[1..];
    assert forall k | 0 <= k < |tail| :: tail[k] == entries[k + 1];
    if entries[0].id < n && IdsUnder(tail, n) {
      assert forall k | 0 < k < |entries| :: entries[k] == tail[k - 1];
    }
  }

  lemma {:induction false} NextEntry(bytes: Packet, at: nat, entries: seq<Entry>, t: FunctionTable)
    requires entries != [] && EntriesAt(bytes, at, entries)
    ensures var e, record := entries[0], LoadEntry(bytes, at, t);
            if e.id < |t.functions| then
              && record.status == Loaded && |record.table.functions| == |t.functions|
              && EntriesAt(bytes, record.next, entries[1..])
            else record.status == Error(3)
  {
  }

  lemma {:induction false} EntriesStatus(bytes: Packet, at: nat, entries: seq<Entry>, t: FunctionTable)
    requires EntriesAt(bytes, at, entries)
    ensures LoadEntries(bytes, at, |entries|, t).0 == if IdsUnder(entries, |t.functions|) then Loaded else Error(3)
    decreases |entries|
  {
    if entries != [] {
      NextEntry(bytes, at, entries, t);
      var record, tail := LoadEntry(bytes, at, t), entries[1..];
      if entries[0].id < |t.functions| {
        EntriesStatus(bytes, record.next, tail, record.table);
        assert LoadEntries(bytes, at, |entries|, t).0 == if IdsUnder(tail, |t.functions|) then Loaded else Error(3);
      }
      IdsUnderTail(entries, |t.functions|);
    }
  }

  /** A packed function table of n functions loads exactly when every id is below n. */
  lemma {:induction false} FunctionTableStatus(entries: seq<Entry>)
    requires IsWord(|entries|) && AllEntries(entries)
    ensures var n := |entries|;
            LoadEntries(PackFctids(entries), 4, n, FunctionTable(NoFunctions(n), 0, 0)).0 ==
            if IdsUnder(entries, n) then Loaded else Error(3)
  {
    HoldsWord(PackFctids(entries), 0, |entries|, PackEntries(entries));
    PackedEntries(PackFctids(entries), 4, entries);
    EntriesStatus(PackFctids(entries), 4, entries, FunctionTable(NoFunctions(|entries|), 0, 0));
  }

  // ----- The post-dominators

  /** The line is about a block that exists. */
  predicate LineFits(e: Ipd, fs: seq<FunctionData>) {
    e.fn < |fs| && fs[e.fn].nbBlocks > 0 && e.block < fs[e.fn].nbBlocks
  }

  predicate LinesFit(ipds: seq<Ipd>, fs: seq<FunctionData>) {
    forall k | 0 <= k < |ipds| :: LineFits(ipds[k], fs)
  }

  predicate FirstUnfitLine(ipds: seq<Ipd>, fs: seq<FunctionData>, k: nat) {
    k < |ipds| && !LineFits(ipds[k], fs) && forall j | 0 <= j < k :: LineFits(ipds[j], fs)
  }

  /** Every function has a post-dominator for each block. */
  predicate HavePostDominators(fs: seq<FunctionData>) {
    forall f | 0 <= f < |fs| :: |fs[f].immediatePostDominator| == fs[f].nbBlocks
  }

  lemma {:induction false} LinesFitTail(ipds: seq<Ipd>, fs: seq<FunctionData>, next: seq<FunctionData>)
    requires ipds != [] && LineFits(ipds[0], fs) && |next| == |fs|
    requires forall f | 0 <= f < |fs| :: next[f].nbBlocks == fs[f].nbBlocks
    ensures LinesFit(ipds, fs) <==> LinesFit(ipds[1..], next)
    ensures forall k: nat | FirstUnfitLine(ipds, fs, k) :: k > 0 && FirstUnfitLine(ipds[1..], next, k - 1)
  {
    var tail := ipds[1..];
    assert forall k | 0 <= k < |tail| :: tail[k] == ipds[k + 1];
    assert forall e: Ipd :: LineFits(e, fs) <==> LineFits(e, next);
    if LinesFit(tail, next) {
      assert forall k | 0 < k < |ipds| :: ipds[k] == tail[k - 1];
    }
  }

  lemma {:induction false} LinesStatus(bytes: Packet, at: nat, ipds: seq<Ipd>, fs: seq<FunctionData>)
    requires IpdsAt(bytes, at, ipds) && HavePostDominators(fs)
    ensures LoadIpds(bytes, at, |ipds|, fs).0 == Loaded <==> LinesFit(ipds, fs)
    ensures forall k: nat | FirstUnfitLine(ipds, fs, k) ::
              LoadIpds(bytes, at, |ipds|, fs).0 ==
              Error(if ipds[k].fn >= |fs| then 2 else if fs[ipds[k].fn].nbBlocks == 0 then 4 else 5)
    decreases |ipds|
  {
    if ipds != [] && LineFits(ipds[0], fs) {
      var e := ipds[0];
      var next := fs[e.fn := SetIpd(fs[e.fn], e.block, e.dominator)];
      assert LoadIpd(bytes, at, fs) == Record(Loaded, next, at + 16);
      LinesFitTail(ipds, fs, next);
      LinesStatus(bytes, at + 16, ipds[1..], next);
      var tail := ipds[1..];
      forall k: nat | FirstUnfitLine(ipds, fs, k) ensures k > 0 && FirstUnfitLine(tail, next, k - 1) {
        assert tail[k - 1] == ipds[k];
      }
    }
  }

  /** A packed post-dominator table loads exactly when its lines are about blocks that exist; otherwise the
      first other line decides: 2 without such a function, 4 without a block table, 5 without such a block. */
  lemma {:induction false} IpdStatus(ipds: seq<Ipd>, fs: seq<FunctionData>)
    requires IsWord(|ipds|) && AllIpds(ipds) && HavePostDominators(fs)
    ensures var status := LoadIpds(PackBlockIpd(ipds), 4, |ipds|, fs).0;
            && (status == Loaded <==> LinesFit(ipds, fs))
            && forall k: nat | FirstUnfitLine(ipds, fs, k) ::
                 status == Error(if ipds[k].fn >= |fs| then 2 else if fs[ipds[k].fn].nbBlocks == 0 then 4 else 5)
  {
    HoldsWord(PackBlockIpd(ipds), 0, |ipds|, PackIpds(ipds));
    PackedIpds(PackBlockIpd(ipds), 4, ipds);
    LinesStatus(PackBlockIpd(ipds), 4, ipds, fs);
  }
}
