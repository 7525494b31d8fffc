/**
 The .ipdom file: written by writeIPDOMToFile (llvm_pass/CFI/CFI.cpp), read and packed by picon-prelink
 (parse_bb_ipd and gen_packed_bb_ipd).
 */
module PostDominators {
  import opened Wrappers
  import opened Bytes
  import opened Packing
  import opened Text
  import opened Prelink

  /** The first three numbers of a line; the last block of the function comes last. */
  function FirstNumbers(e: Ipd): seq<int> {
    [e.fn, e.block, e.dominator]
  }

  function IpdLine(e: Ipd): string {
    Spaced(Decimals(FirstNumbers(e))) + Signed(e.last)
  }

  function IpdLines(ipds: seq<Ipd>): seq<string> {
    if ipds == [] then [] else [IpdLine(ipds[0])] + IpdLines(ipds[1..])
  }

  // ----- parse_bb_ipd: a line is any number of numbers

  function NumbersOf(e: Ipd): seq<int> {
    FirstNumbers(e) + [e.last]
  }

  function AllNumbers(ipds: seq<Ipd>): (rows: seq<seq<int>>)
    ensures |rows| == |ipds| && forall k | 0 <= k < |ipds| :: rows[k] == NumbersOf(ipds[k])
  {
    seq(|ipds|, k requires 0 <= k < |ipds| => NumbersOf(ipds[k]))
  }

  lemma {:induction false} IpdLineParses(e: Ipd)
    ensures IsLine(IpdLine(e)) && ParseInts(Split(IpdLine(e))) == Some(NumbersOf(e))
  {
    var words := Decimals(FirstNumbers(e));
    DecimalsAreWords(FirstNumbers(e));
    SignedIsWord(e.last);
    SpacedIsLine(words);
    SplitSpaced(words, Signed(e.last));
    DecimalsSnoc(FirstNumbers(e), e.last);
    ParseDecimals(NumbersOf(e));
  }

  lemma {:induction false} DecimalsSnoc(ns: seq<int>, n: int)
    ensures Decimals(ns + [n]) == Decimals(ns) + [Signed(n)]
    decreases |ns|
  {
    if ns == [] {
      assert ns + [n] == [n] && [n][1..] == [];
    } else {
      assert (ns + [n])[1..] == ns[1..] + [n];
      DecimalsSnoc(ns[1..], n);
    }
  }

  function ParseIpdLines(lines: seq<string>, rows: seq<seq<int>>): Option<seq<seq<int>>>
    decreases |lines|
  {
    if lines == [] then Some(rows)
    else
      match ParseInts(Split(lines[0]))
      case None => None
      case Some(row) => ParseIpdLines(lines[1..], rows + [row])
  }

  method ParseBBIpd(text: string) returns (rows: Option<seq<seq<int>>>)
    ensures rows == ParseIpdLines(Lines(text), [])
  {
    var lines := Lines(text);
    var list: seq<seq<int>> := [];
    for i := 0 to |lines|
      invariant ParseIpdLines(lines, []) == ParseIpdLines(lines[i..], list)
    {
      var row := ParseInts(Split(lines[i]));
      if row.None? {
        return None;
      }
      list := list + [row.value];
      assert lines[i..][1..] == lines[i + 1..];
    }
    assert lines[|lines|..] == [];
    return Some(list);
  }

  lemma {:induction false} IpdLinesParse(ipds: seq<Ipd>, before: seq<seq<int>>)
    ensures AllLines(IpdLines(ipds)) && ParseIpdLines(IpdLines(ipds), before) == Some(before + AllNumbers(ipds))
    decreases |ipds|
  {
    if ipds == [] {
      assert before + AllNumbers(ipds) == before;
    } else {
      IpdLineParses(ipds[0]);
      IpdLinesParse(ipds[1..], before + [NumbersOf(ipds[0])]);
      MoreNumbers(before, ipds);
    }
  }

  lemma {:induction false} MoreNumbers(before: seq<seq<int>>, ipds: seq<Ipd>)
    requires ipds != []
    ensures before + [NumbersOf(ipds[0])] + AllNumbers(ipds[1..]) == before + AllNumbers(ipds)
  {
  }

  /** The table read back is the table written, line for line. */
  lemma {:induction false} IpdTextRoundTrip(ipds: seq<Ipd>)
    ensures ParseIpdLines(Lines(File(IpdLines(ipds))), []) == Some(AllNumbers(ipds))
  {
    IpdLinesParse(ipds, []);
    LinesOfFile(IpdLines(ipds));
    assert [] + AllNumbers(ipds) == AllNumbers(ipds);
  }

  method WriteIpds(ipds: seq<Ipd>) returns (text: string)
    ensures text == File(IpdLines(ipds))
  {
    text := "";
    for i := 0 to |ipds|
      invariant text == File(IpdLines(ipds[..i]))
    {
      var line := Spaced(Decimals(FirstNumbers(ipds[i]))) + Signed(ipds[i].last);
      OneMoreIpd(ipds, i);
      text := text + line + "\n";
    }
    assert ipds[..|ipds|] == ipds;
  }

  lemma {:induction false} OneMoreIpd(ipds: seq<Ipd>, i: nat)
    requires i < |ipds|
    ensures File(IpdLines(ipds[..i + 1])) == File(IpdLines(ipds[..i])) + IpdLine(ipds[i]) + "\n"
  {
    assert ipds[..i + 1] == ipds[..i] + [ipds[i]];
    IpdLinesSnoc(ipds[..i], ipds[i]);
    FileSnoc(IpdLines(ipds[..i]), IpdLine(ipds[i]));
  }

  lemma {:induction false} IpdLinesSnoc(ipds: seq<Ipd>, e: Ipd)
    ensures IpdLines(ipds + [e]) == IpdLines(ipds) + [IpdLine(e)]
    decreases |ipds|
  {
    if ipds == [] {
      assert ipds + [e] == [e] && [e][1..] == [];
    } else {
      assert (ipds + [e])[1..] == ipds[1..] + [e];
      IpdLinesSnoc(ipds[1..], e);
    }
  }

  // ----- gen_packed_bb_ipd

  /** struct.pack takes exactly four words. */
  predicate IsIpdRow(row: seq<int>) {
    |row| == 4 && IsWord(row[0]) && IsWord(row[1]) && IsWord(row[2]) && IsWord(row[3])
  }

  predicate AllIpdRows(rows: seq<seq<int>>) {
    forall k | 0 <= k < |rows| :: IsIpdRow(rows[k])
  }

  function IpdOf(row: seq<int>): Ipd
    requires IsIpdRow(row)
  {
    Ipd(row[0], row[1], row[2], row[3])
  }

  function IpdsOf(rows: seq<seq<int>>): (ipds: seq<Ipd>)
    requires AllIpdRows(rows)
    ensures |ipds| == |rows| && (forall k | 0 <= k < |rows| :: ipds[k] == IpdOf(rows[k])) && AllIpds(ipds)
  {
    seq(|rows|, k requires 0 <= k < |rows| => IpdOf(rows[k]))
  }

  lemma {:induction false} IpdsOfNumbers(ipds: seq<Ipd>)
    requires AllIpds(ipds)
    ensures AllIpdRows(AllNumbers(ipds)) && IpdsOf(AllNumbers(ipds)) == ipds
  {
    forall k | 0 <= k < |ipds| ensures IsIpdRow(AllNumbers(ipds)[k]) && IpdOf(AllNumbers(ipds)[k]) == ipds[k] {
      assert AllNumbers(ipds)[k] == NumbersOf(ipds[k]);
    }
  }

  /** None: some line does not have four numbers, or one of them does not fit a word. */
  method GenPackedBBIpd(rows: seq<seq<int>>) returns (bytes: Option<Packet>)
    ensures bytes.Some? <==> IsWord(|rows|) && AllIpdRows(rows)
    ensures bytes.Some? ==> bytes.value == PackBlockIpd(IpdsOf(rows))
  {
    if !IsWord(|rows|) {
      return None;
    }
    var body: Packet := [];
    for i := 0 to |rows|
      invariant AllIpdRows(rows[..i]) && body == PackIpds(IpdsOf(rows[..i]))
    {
      if !IsIpdRow(rows[i]) {
        return None;
      }
      assert rows[..i + 1] == rows[..i] + [rows[i]];
      OneMoreRow(rows[..i], rows[i]);
      body := body + PackIpd(IpdOf(rows[i]));
    }
    assert rows[..|rows|] == rows;
    return Some(U32(|rows|) + body);
  }

  lemma {:induction false} OneMoreRow(rows: seq<seq<int>>, row: seq<int>)
    requires AllIpdRows(rows) && IsIpdRow(row)
    ensures AllIpdRows(rows + [row])
    ensures PackIpds(IpdsOf(rows + [row])) == PackIpds(IpdsOf(rows)) + PackIpd(IpdOf(row))
  {
    assert IpdsOf(rows + [row]) == IpdsOf(rows) + [IpdOf(row)];
    PackIpdsSnoc(IpdsOf(rows), IpdOf(row));
  }

  lemma {:induction false} PackIpdsSnoc(ipds: seq<Ipd>, e: Ipd)
    requires AllIpds(ipds) && IsWord(e.fn) && IsWord(e.block) && IsWord(e.dominator) && IsWord(e.last)
    ensures AllIpds(ipds + [e]) && PackIpds(ipds + [e]) == PackIpds(ipds) + PackIpd(e)
    decreases |ipds|
  {
    if ipds == [] {
      assert ipds + [e] == [e] && [e][1..] == [];
      assert PackIpds([e]) == PackIpd(e) + [];
    } else {
      assert (ipds + [e])[1..] == ipds[1..] + [e];
      PackIpdsSnoc(ipds[1..], e);
      PackIpdsFirst(ipds + [e]);
      PackIpdsFirst(ipds);
    }
  }

  lemma {:induction false} PackIpdsFirst(ipds: seq<Ipd>)
    requires ipds != [] && AllIpds(ipds)
    ensures PackIpds(ipds) == PackIpd(ipds[0]) + PackIpds(ipds[1..])
  {
  }
}
