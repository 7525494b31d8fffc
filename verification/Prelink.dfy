/**
 The text tables between the LLVM pass and picon-prelink, the parsers of picon-prelink and its packing
 of dictionaries.  None stands for a Python exception or exit.
 */
module Prelink {
  import opened Wrappers
  import opened Bytes
  import opened Packing
  import opened Text

  // ----- The lines that the pass writes

  function Decimals(ns: seq<int>): seq<string> {
    if ns == [] then [] else [Signed(ns[0])] + Decimals(ns[1..])
  }

  lemma {:induction false} DecimalsAreWords(ns: seq<int>)
    ensures AllWordText(Decimals(ns))
    decreases |ns|
  {
    if ns != [] {
      SignedIsWord(ns[0]);
      DecimalsAreWords(ns[1..]);
    }
  }

  function RowWords(row: Row): seq<string> {
    ["(" + Signed(row.id) + ")"] + Decimals(row.targets)
  }

  function RowLine(row: Row): string {
    Spaced(RowWords(row))
  }

  function RowLines(rows: seq<Row>): (lines: seq<string>)
    ensures |lines| == |rows|
  {
    if rows == [] then [] else [RowLine(rows[0])] + RowLines(rows[1..])
  }

  function CallgraphText(rows: seq<Row>): string {
    File(RowLines(rows))
  }

  /** The blocks of a function: how many there are, and the successors of those that have some. */
  datatype BlockTable = BlockTable(fn: int, nbBlocks: int, rows: seq<Row>)

  function HeadWord(fn: int): string {
    ";{" + Signed(fn) + "}"
  }

  function HeadLine(fn: int, nbBlocks: int): string {
    Spaced([HeadWord(fn)]) + Signed(nbBlocks)
  }

  /** A function with a single block has no other line, not even the blank one. */
  function BlockLines(t: BlockTable): seq<string> {
    [HeadLine(t.fn, t.nbBlocks)] + if t.nbBlocks == 1 then [] else RowLines(t.rows) + [""]
  }

  function TablesLines(ts: seq<BlockTable>): seq<string> {
    if ts == [] then [] else BlockLines(ts[0]) + TablesLines(ts[1..])
  }

  function BlocksText(ts: seq<BlockTable>): string {
    File(TablesLines(ts))
  }

  // ----- Parsing one line

  function ParseInts(words: seq<string>): Option<seq<int>> {
    if words == [] then Some([])
    else
      match (ParseInt(words[0]), ParseInts(words[1..]))
      case (Some(n), Some(ns)) => Some([n] + ns)
      case _ => None
  }

  /** w[k:-1] */
  function Inside(w: string, k: nat): string {
    if |w| < k + 1 then "" else w[k..|w| - 1]
  }

  function ParseRow(line: string): Option<Row> {
    var words := Split(line);
    if words == [] then None
    else
      match (ParseInt(Inside(words[0], 1)), ParseInts(words[1..]))
      case (Some(id), Some(targets)) => Some(Row(id, targets))
      case _ => None
  }

  lemma {:induction false} ParseDecimals(ns: seq<int>)
    ensures ParseInts(Decimals(ns)) == Some(ns)
    decreases |ns|
  {
    if ns != [] {
      ParseSigned(ns[0]);
      ParseDecimals(ns[1..]);
      assert Decimals(ns)[0] == Signed(ns[0]) && Decimals(ns)[1..] == Decimals(ns[1..]);
      HeadFirst(ns);
    }
  }

  lemma {:induction false} HeadFirst(ns: seq<int>)
    requires ns != []
    ensures [ns[0]] + ns[1..] == ns
  {
  }

  lemma {:induction false} BracketedWord(open: string, n: int, close: string)
    requires IsWordText(open) && IsWordText(close) && |close| == 1
    ensures IsWordText(open + Signed(n) + close)
    ensures Inside(open + Signed(n) + close, |open|) == Signed(n)
  {
    SignedIsWord(n);
  }

  lemma {:induction false} RowLineWords(row: Row)
    ensures AllWordText(RowWords(row)) && IsLine(RowLine(row)) && Split(RowLine(row)) == RowWords(row)
  {
    BracketedWord("(", row.id, ")");
    DecimalsAreWords(row.targets);
    SpacedIsLine(RowWords(row));
    SplitSpaced(RowWords(row), "");
    assert RowLine(row) + "" == RowLine(row) && RowWords(row) + LastWord("") == RowWords(row);
  }

  lemma {:induction false} ParseRowLine(row: Row)
    ensures ParseRow(RowLine(row)) == Some(row)
  {
    RowLineWords(row);
    BracketedWord("(", row.id, ")");
    ParseSigned(row.id);
    ParseDecimals(row.targets);
    assert RowWords(row)[1..] == Decimals(row.targets);
  }

  // ----- parse_callgraph

  type Transitions = map<int, seq<int>>

  function SetRow(dict: Transitions, row: Row): Transitions {
    dict[row.id := row.targets]
  }

  /** A later line about the same id replaces an earlier one. */
  function Extend(dict: Transitions, rows: seq<Row>): Transitions
    decreases |rows|
  {
    if rows == [] then dict else Extend(SetRow(dict, rows[0]), rows[1..])
  }

  function ParseRows(lines: seq<string>, dict: Transitions): Option<Transitions>
    decreases |lines|
  {
    if lines == [] then Some(dict)
    else
      match ParseRow(lines[0])
      case None => None
      case Some(row) => ParseRows(lines[1..], SetRow(dict, row))
  }

  method ParseCallgraph(text: string) returns (callgraph: Option<Transitions>)
    ensures callgraph == ParseRows(Lines(text), map[])
  {
    var lines := Lines(text);
    var dict: Transitions := map[];
    for i := 0 to |lines|
      invariant ParseRows(lines, map[]) == ParseRows(lines[i..], dict)
    {
      assert lines[i..][1..] == lines[i + 1..];
      var row := ParseRow(lines[i]);
      if row.None? {
        return None;
      }
      dict := SetRow(dict, row.value);
    }
    assert lines[|lines|..] == [];
    return Some(dict);
  }

  lemma {:induction false} ParseFirstRow(row: Row, lines: seq<string>, dict: Transitions)
    ensures ParseRows([RowLine(row)] + lines, dict) == ParseRows(lines, SetRow(dict, row))
  {
    ParseRowLine(row);
    assert ([RowLine(row)] + lines)[1..] == lines;
  }

  lemma {:induction false} ParseRowLines(rows: seq<Row>, dict: Transitions)
    ensures AllLines(RowLines(rows)) && ParseRows(RowLines(rows), dict) == Some(Extend(dict, rows))
    decreases |rows|
  {
    if rows != [] {
      RowLineWords(rows[0]);
      ParseFirstRow(rows[0], RowLines(rows[1..]), dict);
      ParseRowLines(rows[1..], SetRow(dict, rows[0]));
    }
  }

  /** The dictionary read from the table the pass wrote holds, for each id, the targets of its last row. */
  lemma {:induction false} CallgraphTextRoundTrip(rows: seq<Row>)
    ensures ParseRows(Lines(CallgraphText(rows)), map[]) == Some(Extend(map[], rows))
  {
    ParseRowLines(rows, map[]);
    LinesOfFile(RowLines(rows));
  }

  // ----- Packing a dictionary

  /** The rows are the items of the dictionary, in some order. */
  predicate Enumerates(rows: seq<Row>, dict: Transitions) {
    && DistinctIds(rows)
    && (forall k | 0 <= k < |rows| :: rows[k].id in dict && dict[rows[k].id] == rows[k].targets)
    && (forall id | id in dict :: exists k | 0 <= k < |rows| :: rows[k].id == id)
  }

  predicate PackableDict(dict: Transitions) {
    IsWord(|dict|) && forall id | id in dict :: Packable(Row(id, dict[id]))
  }

  /** The rows are the items whose keys are no longer in keys. */
  predicate ListsBut(rows: seq<Row>, dict: Transitions, keys: set<int>) {
    && DistinctIds(rows) && AllPackable(rows) && keys <= dict.Keys && |rows| == |dict| - |keys|
    && (forall k | 0 <= k < |rows| :: rows[k].id in dict && rows[k].id !in keys && dict[rows[k].id] == rows[k].targets)
    && (forall id | id in dict && id !in keys :: exists k | 0 <= k < |rows| :: rows[k].id == id)
  }

  lemma {:induction false} OneMoreItem(rows: seq<Row>, dict: Transitions, keys: set<int>, id: int)
    requires ListsBut(rows, dict, keys) && PackableDict(dict) && id in keys
    ensures ListsBut(rows + [Row(id, dict[id])], dict, keys - {id})
  {
    var more := rows + [Row(id, dict[id])];
    assert more[|rows|].id == id;
    assert forall k | 0 <= k < |rows| :: more[k] == rows[k];
  }

  /** The bytes are the records of the items of the dictionary, in some order. */
  ghost predicate IsPackedDict(bytes: Packet, dict: Transitions) {
    exists rows :: Enumerates(rows, dict) && |rows| == |dict| && AllPackable(rows) && bytes == PackRows(rows)
  }

  lemma {:induction false} SomeKey<T>(keys: set<T>) returns (key: T)
    requires keys != {}
    ensures key in keys
  {
    key :| key in keys;
  }

  /** packed_dict_uint32, and the loop of gen_packed_callgraph. */
  method PackedDict(dict: Transitions) returns (bytes: Packet, ghost rows: seq<Row>)
    requires PackableDict(dict)
    ensures Enumerates(rows, dict) && |rows| == |dict| && AllPackable(rows)
    ensures bytes == PackRows(rows) && IsPackedDict(bytes, dict)
  {
    bytes, rows := [], [];
    var keys: set<int> := dict.Keys;
    assert |dict| == |dict.Keys|;
    while keys != {}
      invariant ListsBut(rows, dict, keys) && bytes == PackRows(rows)
      decreases |keys|
    {
      ghost var some := SomeKey(keys);
      var id: int :| id in keys;
      bytes := bytes + U32(id) + U32(|dict[id]|) + U32s(dict[id]);
      PackRowsSnoc(rows, Row(id, dict[id]));
      OneMoreItem(rows, dict, keys, id);
      keys := keys - {id};
      rows := rows + [Row(id, dict[id])];
    }
    AllItems(rows, dict, bytes);
  }

  lemma {:induction false} AllItems(rows: seq<Row>, dict: Transitions, bytes: Packet)
    requires ListsBut(rows, dict, {}) && bytes == PackRows(rows)
    ensures Enumerates(rows, dict) && |rows| == |dict| && AllPackable(rows)
    ensures IsPackedDict(bytes, dict)
  {
  }

  lemma {:induction false} PackRowsSnoc(rows: seq<Row>, row: Row)
    requires AllPackable(rows) && Packable(row)
    ensures AllPackable(rows + [row])
    ensures PackRows(rows + [row]) == PackRows(rows) + U32(row.id) + U32(|row.targets|) + U32s(row.targets)
  {
    PackRowsOneMore(rows, row);
    assert PackRow(row) == U32(row.id) + U32(|row.targets|) + U32s(row.targets);
  }

  lemma {:induction false} PackRowsOneMore(rows: seq<Row>, row: Row)
    requires AllPackable(rows) && Packable(row)
    ensures AllPackable(rows + [row])
    ensures PackRows(rows + [row]) == PackRows(rows) + PackRow(row)
    decreases |rows|
  {
    if rows == [] {
      assert [row][1..] == [];
      assert rows + [row] == [row];
      assert PackRow(row) + [] == [] + PackRow(row);
    } else {
      assert (rows + [row])[1..] == rows[1..] + [row];
      PackRowsOneMore(rows[1..], row);
      Assoc3(PackRow(rows[0]), PackRows(rows[1..]), PackRow(row));
    }
  }

  method GenPackedCallgraph(callgraph: Transitions) returns (bytes: Packet, ghost rows: seq<Row>)
    requires PackableDict(callgraph)
    ensures Enumerates(rows, callgraph) && IsWord(|rows|) && AllPackable(rows)
    ensures bytes == PackCallgraph(rows)
    ensures exists rs :: Enumerates(rs, callgraph) && IsWord(|rs|) && AllPackable(rs) && bytes == PackCallgraph(rs)
  {
    bytes, rows := PackedDict(callgraph);
    bytes := U32(|callgraph|) + bytes;
  }

  // ----- parse_bb and gen_packed_bb

  datatype BlockDicts = BlockDicts(current: Option<int>, bb: map<int, Transitions>, nums: map<int, int>)

  const NO_BLOCK_DICT := BlockDicts(None, map[], map[])

  predicate IsHead(line: string) {
    |line| >= 2 && line[0] == ';' && line[1] == '{'
  }

  function ParseBBLine(line: string, d: BlockDicts): Option<BlockDicts> {
    if IsHead(line) then
      var words := Split(line);
      if |words| < 2 then None
      else
        match (ParseInt(Inside(words[0], 2)), ParseInt(words[1]))
        case (Some(f), Some(n)) =>
          if f in d.bb then None else Some(BlockDicts(Some(f), d.bb[f := map[]], d.nums[f := n]))
        case _ => None
    else if Split(line) == [] then Some(d)
    else
      match (d.current, ParseRow(line))
      case (Some(f), Some(row)) =>
        if f !in d.bb then None else Some(d.(bb := d.bb[f := SetRow(d.bb[f], row)]))
      case _ => None
  }

  function ParseBBLines(lines: seq<string>, d: BlockDicts): Option<BlockDicts>
    decreases |lines|
  {
    if lines == [] then Some(d)
    else
      match ParseBBLine(lines[0], d)
      case None => None
      case Some(next) => ParseBBLines(lines[1..], next)
  }

  method ParseBB(text: string) returns (dicts: Option<BlockDicts>)
    ensures dicts == ParseBBLines(Lines(text), NO_BLOCK_DICT)
  {
    var lines := Lines(text);
    var d := NO_BLOCK_DICT;
    for i := 0 to |lines|
      invariant ParseBBLines(lines, NO_BLOCK_DICT) == ParseBBLines(lines[i..], d)
    {
      assert lines[i..][1..] == lines[i + 1..];
      var next := ParseBBLine(lines[i], d);
      if next.None? {
        return None;
      }
      d := next.value;
    }
    return Some(d);
  }

  lemma {:induction false} ParseBBAppend(a: seq<string>, b: seq<string>, d: BlockDicts)
    requires ParseBBLines(a, d).Some?
    ensures ParseBBLines(a + b, d) == ParseBBLines(b, ParseBBLines(a, d).value)
    decreases |a|
  {
    if a == [] {
      assert a + b == b;
    } else {
      assert (a + b)[1..] == a[1..] + b;
      ParseBBAppend(a[1..], b, ParseBBLine(a[0], d).value);
    }
  }

  lemma {:induction false} ParseBBRow(row: Row, d: BlockDicts)
    requires d.current.Some? && d.current.value in d.bb
    ensures var f := d.current.value;
            ParseBBLine(RowLine(row), d) == Some(d.(bb := d.bb[f := SetRow(d.bb[f], row)]))
  {
    ParseRowLine(row);
    RowLineWords(row);
    assert RowLine(row)[0] == '(' by {
      assert RowWords(row)[0][0] == '(';
    }
  }

  function WithRows(d: BlockDicts, dict: Transitions): BlockDicts
    requires d.current.Some?
  {
    d.(bb := d.bb[d.current.value := dict])
  }

  lemma {:induction false} ParseBBStep(rows: seq<Row>, d: BlockDicts)
    requires rows != [] && d.current.Some? && d.current.value in d.bb
    ensures ParseBBLines(RowLines(rows), d) ==
            ParseBBLines(RowLines(rows[1..]), WithRows(d, SetRow(d.bb[d.current.value], rows[0])))
  {
    ParseBBRow(rows[0], d);
    assert RowLines(rows)[1..] == RowLines(rows[1..]);
  }

  lemma {:induction false} ParseBBRows(rows: seq<Row>, d: BlockDicts)
    requires d.current.Some? && d.current.value in d.bb
    ensures ParseBBLines(RowLines(rows), d) == Some(WithRows(d, Extend(d.bb[d.current.value], rows)))
    decreases |rows|
  {
    var f := d.current.value;
    if rows == [] {
      assert d.bb[f := d.bb[f]] == d.bb;
    } else {
      ParseBBStep(rows, d);
      var next := WithRows(d, SetRow(d.bb[f], rows[0]));
      ParseBBRows(rows[1..], next);
      var dict := Extend(d.bb[f], rows);
      assert next.bb[f := dict] == d.bb[f := dict];
    }
  }

  lemma {:induction false} HeadLineWords(fn: int, nbBlocks: int)
    ensures Split(HeadLine(fn, nbBlocks)) == [HeadWord(fn), Signed(nbBlocks)]
    ensures IsHead(HeadLine(fn, nbBlocks)) && IsLine(HeadLine(fn, nbBlocks))
    ensures Inside(HeadWord(fn), 2) == Signed(fn)
  {
    BracketedWord(";{", fn, "}");
    SignedIsWord(nbBlocks);
    TwoWords(HeadWord(fn), Signed(nbBlocks));
  }

  lemma {:induction false} TwoWords(first: string, last: string)
    requires IsWordText(first) && IsWordText(last)
    ensures var line := Spaced([first]) + last;
            Split(line) == [first, last] && IsLine(line) && (IsHead(first) ==> IsHead(line))
  {
    SpacedIsLine([first]);
    SplitSpaced([first], last);
    SpacedUnfolds([first], last);
  }

  lemma {:induction false} HeadLineParses(fn: int, nbBlocks: int, d: BlockDicts)
    requires fn !in d.bb
    ensures IsLine(HeadLine(fn, nbBlocks))
    ensures ParseBBLine(HeadLine(fn, nbBlocks), d) ==
            Some(BlockDicts(Some(fn), d.bb[fn := map[]], d.nums[fn := nbBlocks]))
  {
    HeadLineWords(fn, nbBlocks);
    ParseSigned(fn);
    ParseSigned(nbBlocks);
  }

  function AddTable(d: BlockDicts, t: BlockTable): BlockDicts {
    BlockDicts(Some(t.fn), d.bb[t.fn := Extend(map[], t.rows)], d.nums[t.fn := t.nbBlocks])
  }

  /** The rows of a function and the blank line after them, once its head has been read. */
  lemma {:induction false} ParseBBBody(t: BlockTable, d: BlockDicts, head: BlockDicts)
    requires head == BlockDicts(Some(t.fn), d.bb[t.fn := map[]], d.nums[t.fn := t.nbBlocks])
    ensures AllLines(RowLines(t.rows) + [""])
    ensures ParseBBLines(RowLines(t.rows) + [""], head) == Some(AddTable(d, t))
  {
    ParseRowLines(t.rows, map[]);
    ParseBBRows(t.rows, head);
    SetTwice(d.bb, t.fn, map[], Extend(map[], t.rows));
    ParseBBAppend(RowLines(t.rows), [""], head);
    BlankLine(AddTable(d, t));
  }

  lemma {:induction false} SetTwice(m: map<int, Transitions>, k: int, a: Transitions, b: Transitions)
    ensures m[k := a][k := b] == m[k := b]
  {
  }

  lemma {:induction false} BlankLine(d: BlockDicts)
    ensures ParseBBLines([""], d) == Some(d)
  {
    assert ParseBBLine("", d) == Some(d);
    assert [""][1..] == [];
  }

  lemma {:induction false} ParseBBTable(t: BlockTable, d: BlockDicts)
    requires t.fn !in d.bb && (t.nbBlocks == 1 ==> t.rows == [])
    ensures AllLines(BlockLines(t)) && ParseBBLines(BlockLines(t), d) == Some(AddTable(d, t))
  {
    HeadLineParses(t.fn, t.nbBlocks, d);
    var head := BlockDicts(Some(t.fn), d.bb[t.fn := map[]], d.nums[t.fn := t.nbBlocks]);
    var body := if t.nbBlocks == 1 then [] else RowLines(t.rows) + [""];
    assert BlockLines(t)[1..] == body;
    if t.nbBlocks == 1 {
      assert AddTable(d, t) == head;
    } else {
      ParseBBBody(t, d, head);
    }
  }

  predicate DistinctTables(ts: seq<BlockTable>) {
    && (forall i, j | 0 <= i < j < |ts| :: ts[i].fn != ts[j].fn)
    && (forall i | 0 <= i < |ts| :: ts[i].nbBlocks == 1 ==> ts[i].rows == [])
  }

  function AddTables(d: BlockDicts, ts: seq<BlockTable>): BlockDicts
    decreases |ts|
  {
    if ts == [] then d else AddTables(AddTable(d, ts[0]), ts[1..])
  }

  lemma {:induction false} ParseBBTables(ts: seq<BlockTable>, d: BlockDicts)
    requires DistinctTables(ts) && forall i | 0 <= i < |ts| :: ts[i].fn !in d.bb
    ensures AllLines(TablesLines(ts)) && ParseBBLines(TablesLines(ts), d) == Some(AddTables(d, ts))
    decreases |ts|
  {
    if ts != [] {
      ParseBBTable(ts[0], d);
      assert forall i | 0 <= i < |ts[1..]| :: ts[1..][i] == ts[i + 1];
      ParseBBTables(ts[1..], AddTable(d, ts[0]));
      ParseBBAppend(BlockLines(ts[0]), TablesLines(ts[1..]), d);
    }
  }

  lemma {:induction false} ExtendMeaning(dict: Transitions, rows: seq<Row>)
    requires DistinctIds(rows)
    ensures forall k | 0 <= k < |rows| ::
              rows[k].id in Extend(dict, rows) && Extend(dict, rows)[rows[k].id] == rows[k].targets
    ensures forall id :: id in Extend(dict, rows) <==> id in dict || exists k | 0 <= k < |rows| :: rows[k].id == id
    ensures forall id | id in dict && (forall k | 0 <= k < |rows| :: rows[k].id != id) ::
              Extend(dict, rows)[id] == dict[id]
    decreases |rows|
  {
    if rows != [] {
      var next, tail := SetRow(dict, rows[0]), rows[1..];
      assert forall k | 0 <= k < |tail| :: tail[k] == rows[k + 1];
      ExtendMeaning(next, tail);
      assert forall k | 0 < k < |rows| :: rows[k] == tail[k - 1];
    }
  }

  lemma {:induction false} AddTablesMeaning(d: BlockDicts, ts: seq<BlockTable>)
    requires DistinctTables(ts)
    ensures forall k | 0 <= k < |ts| ::
              && ts[k].fn in AddTables(d, ts).bb && AddTables(d, ts).bb[ts[k].fn] == Extend(map[], ts[k].rows)
              && ts[k].fn in AddTables(d, ts).nums && AddTables(d, ts).nums[ts[k].fn] == ts[k].nbBlocks
    ensures forall f :: f in AddTables(d, ts).bb <==> f in d.bb || exists k | 0 <= k < |ts| :: ts[k].fn == f
    ensures forall f | f in d.bb && (forall k | 0 <= k < |ts| :: ts[k].fn != f) ::
              && AddTables(d, ts).bb[f] == d.bb[f]
              && (f in d.nums ==> f in AddTables(d, ts).nums && AddTables(d, ts).nums[f] == d.nums[f])
    decreases |ts|
  {
    if ts != [] {
      var next, tail := AddTable(d, ts[0]), ts[1..];
      assert forall k | 0 <= k < |tail| :: tail[k] == ts[k + 1];
      AddTablesMeaning(next, tail);
      assert forall k | 0 < k < |ts| :: ts[k] == tail[k - 1];
    }
  }

  /** Reading the block table back gives, for each function written, its number of blocks and its
      rows, and no other function. */
  lemma {:induction false} BlocksTextRoundTrip(ts: seq<BlockTable>)
    requires DistinctTables(ts)
    ensures ParseBBLines(Lines(BlocksText(ts)), NO_BLOCK_DICT) == Some(AddTables(NO_BLOCK_DICT, ts))
    ensures var d := AddTables(NO_BLOCK_DICT, ts);
            && (forall k | 0 <= k < |ts| ::
                  && ts[k].fn in d.bb && d.bb[ts[k].fn] == Extend(map[], ts[k].rows)
                  && ts[k].fn in d.nums && d.nums[ts[k].fn] == ts[k].nbBlocks)
            && (forall f | f in d.bb :: exists k | 0 <= k < |ts| :: ts[k].fn == f)
  {
    ParseBBTables(ts, NO_BLOCK_DICT);
    LinesOfFile(TablesLines(ts));
    AddTablesMeaning(NO_BLOCK_DICT, ts);
  }

  /** packet is the block table of function t.fn, with its rows in some order. */
  predicate PacksFunction(d: BlockDicts, t: BlockTable, packet: Packet) {
    && t.fn in d.bb && t.fn in d.nums && t.nbBlocks == d.nums[t.fn] && Enumerates(t.rows, d.bb[t.fn])
    && IsWord(t.fn) && IsWord(t.nbBlocks) && IsWord(|t.rows|) && AllPackable(t.rows)
    && packet == PackBlocks(t.fn, t.nbBlocks, t.rows)
  }

  predicate PackableFunction(d: BlockDicts, f: int) {
    f in d.bb && f in d.nums && IsWord(f) && IsWord(d.nums[f]) && PackableDict(d.bb[f])
  }

  method PackedFunction(d: BlockDicts, f: int) returns (packet: Packet, ghost t: BlockTable)
    requires PackableFunction(d, f)
    ensures t.fn == f && PacksFunction(d, t, packet)
    ensures exists s :: PacksFunction(d, s, packet) && s.fn == f
  {
    var body, rows := PackedDict(d.bb[f]);
    packet := U32(f) + U32(d.nums[f]) + U32(|d.bb[f]|) + body;
    t := BlockTable(f, d.nums[f], rows);
  }

  /** The packets are those of the functions listed, one each. */
  predicate PacksAll(d: BlockDicts, order: seq<int>, ts: seq<BlockTable>, packets: seq<Packet>)
    decreases |ts|
  {
    && |order| == |ts| == |packets|
    && (ts != [] ==>
        var n := |ts| - 1;
        ts[n].fn == order[n] && PacksFunction(d, ts[n], packets[n]) && PacksAll(d, order[..n], ts[..n], packets[..n]))
  }

  lemma {:induction false} PacksEach(d: BlockDicts, order: seq<int>, ts: seq<BlockTable>, packets: seq<Packet>, k: nat)
    requires PacksAll(d, order, ts, packets) && k < |ts|
    ensures ts[k].fn == order[k] && PacksFunction(d, ts[k], packets[k])
    decreases |ts|
  {
    var n := |ts| - 1;
    if k < n {
      PacksEach(d, order[..n], ts[..n], packets[..n], k);
    }
  }

  lemma {:induction false} PacksOneMore(d: BlockDicts, order: seq<int>, ts: seq<BlockTable>, packets: seq<Packet>,
                                        t: BlockTable, packet: Packet)
    requires PacksAll(d, order, ts, packets) && PacksFunction(d, t, packet)
    ensures PacksAll(d, order + [t.fn], ts + [t], packets + [packet])
  {
    assert (order + [t.fn])[..|order|] == order;
    assert (ts + [t])[..|ts|] == ts && (packets + [packet])[..|packets|] == packets;
  }

  lemma {:induction false} OneFurther(order: seq<int>, i: nat)
    requires i < |order|
    ensures order[..i + 1] == order[..i] + [order[i]]
  {
  }

  /** One packet per function, in the order in which the dictionary happens to be iterated. */
  method GenPackedBB(d: BlockDicts, order: seq<int>) returns (packets: seq<Packet>, ghost ts: seq<BlockTable>)
    requires forall k | 0 <= k < |order| :: PackableFunction(d, order[k])
    ensures PacksAll(d, order, ts, packets)
  {
    packets, ts := [], [];
    for i := 0 to |order|
      invariant PacksAll(d, order[..i], ts, packets)
    {
      var packet, t := PackedFunction(d, order[i]);
      PacksOneMore(d, order[..i], ts, packets, t, packet);
      packets, ts := packets + [packet], ts + [t];
      OneFurther(order, i);
    }
    assert order[..|order|] == order;
  }

  // ----- What parse_bb refuses

  lemma {:induction false} HeadsStay(lines: seq<string>, d: BlockDicts, f: int)
    requires f in d.bb && ParseBBLines(lines, d).Some?
    ensures f in ParseBBLines(lines, d).value.bb
    decreases |lines|
  {
    if lines != [] {
      HeadsStay(lines[1..], ParseBBLine(lines[0], d).value, f);
    }
  }

  /** The same function twice is an error, whatever is between its two head lines and around them. */
  lemma {:induction false} SecondHeadFails(a: seq<string>, b: seq<string>, c: seq<string>, f: int, n: int, m: int)
    ensures ParseBBLines(a + [HeadLine(f, n)] + b + [HeadLine(f, m)] + c, NO_BLOCK_DICT) == None
  {
    var before := a + [HeadLine(f, n)] + b;
    var rest := [HeadLine(f, m)] + c;
    assert a + [HeadLine(f, n)] + b + [HeadLine(f, m)] + c == before + rest;
    HeadLineWords(f, n);
    HeadLineWords(f, m);
    ParseSigned(f);
    ParseSigned(n);
    ParseSigned(m);
    if ParseBBLines(before, NO_BLOCK_DICT).Some? {
      ParseBBAppend(before, rest, NO_BLOCK_DICT);
      HeadIsThere(a, HeadLine(f, n), b, NO_BLOCK_DICT, f);
    } else {
      FailureStays(before, rest, NO_BLOCK_DICT);
    }
  }

  lemma {:induction false} FailureStays(a: seq<string>, b: seq<string>, d: BlockDicts)
    requires ParseBBLines(a, d).None?
    ensures ParseBBLines(a + b, d).None?
    decreases |a|
  {
    assert (a + b)[1..] == a[1..] + b;
    if ParseBBLine(a[0], d).Some? {
      FailureStays(a[1..], b, ParseBBLine(a[0], d).value);
    }
  }

  lemma {:induction false} HeadIsThere(a: seq<string>, head: string, b: seq<string>, d: BlockDicts, f: int)
    requires IsHead(head) && |Split(head)| >= 2 && ParseInt(Inside(Split(head)[0], 2)) == Some(f)
    requires ParseBBLines(a + [head] + b, d).Some?
    ensures f in ParseBBLines(a + [head] + b, d).value.bb
    decreases |a|
  {
    var lines := a + [head] + b;
    var next := ParseBBLine(lines[0], d).value;
    if a == [] {
      assert lines[0] == head && lines[1..] == b;
      HeadsStay(b, next, f);
    } else {
      assert lines[1..] == a[1..] + [head] + b;
      HeadIsThere(a[1..], head, b, next, f);
    }
  }

  /** A row before any head line is an error. */
  lemma {:induction false} RowWithoutHeadFails(row: Row, more: seq<string>)
    ensures ParseBBLines([RowLine(row)] + more, NO_BLOCK_DICT) == None
  {
    ParseRowLine(row);
    RowLineWords(row);
    assert RowLine(row)[0] == '(' by {
      assert RowWords(row)[0][0] == '(';
    }
  }
}
