/**
 The files and packets between the pass, the prelink step and the monitor, spelt out on small tables: what
 the other modules prove of them is that they are read back, which any agreed format would be.
 */
module Formats {
  import opened MonitorTables
  import opened Bytes
  import opened Packing
  import opened Text
  import opened Prelink
  import opened FunctionIds
  import opened PostDominators

  // ----- The files

  lemma {:induction false} SmallDecimals()
    ensures Signed(0) == "0" && Signed(1) == "1" && Signed(2) == "2" && Signed(7) == "7" && Signed(45) == "45"
  {
    assert Decimal(4) == "4" && Digit(5) == '5';
    assert Decimal(45) == Decimal(4) + [Digit(5)];
  }

  lemma {:induction false} RowText(row: Row)
    requires |row.targets| == 2
    ensures RowLine(row) == "(" + Signed(row.id) + ") " + Signed(row.targets[0]) + " " + Signed(row.targets[1]) + " "
  {
    var a, b := row.targets[0], row.targets[1];
    assert row.targets == [a, b] && [a, b][1..] == [b] && [b][1..] == [];
    assert Decimals([b]) == [Signed(b)];
    assert Decimals([a, b]) == [Signed(a)] + Decimals([b]);
    SpacedTwo("(" + Signed(row.id) + ")", Signed(a), Signed(b));
    assert RowWords(row) == ["(" + Signed(row.id) + ")", Signed(a), Signed(b)];
  }

  lemma {:induction false} SpacedTwo(v: string, w: string, x: string)
    ensures Spaced([v, w, x]) == v + " " + w + " " + x + " "
  {
    assert [v, w, x][1..] == [w, x] && [w, x][1..] == [x] && [x][1..] == [];
    assert Spaced([x]) == x + " " + Spaced([]);
    assert Spaced([w, x]) == w + " " + Spaced([x]);
    assert Spaced([v, w, x]) == v + " " + Spaced([w, x]);
  }

  /** Function 0 calls 1 and 45. */
  lemma {:induction false} CallgraphFile()
    ensures CallgraphText([Row(0, [1, 45])]) == "(0) 1 45 \n"
  {
    var row := Row(0, [1, 45]);
    SmallDecimals();
    RowText(row);
    assert [row][1..] == [];
    assert RowLine(row) == "(0) 1 45 ";
    OneLine(RowLine(row));
  }

  lemma {:induction false} OneLine(line: string)
    ensures File([line]) == line + "\n"
  {
    assert [line][1..] == [];
    assert File([line]) == line + "\n" + File([]);
  }

  lemma {:induction false} HeadText(fn: int, nbBlocks: int)
    ensures HeadLine(fn, nbBlocks) == ";{" + Signed(fn) + "} " + Signed(nbBlocks)
  {
    assert [HeadWord(fn)][1..] == [];
    assert Spaced([HeadWord(fn)]) == HeadWord(fn) + " " + Spaced([]);
  }

  /** The table of a function with two blocks and a branch, and of one with a single block. */
  lemma {:induction false} TableLines(fn: int, row: Row)
    ensures BlockLines(BlockTable(fn, 2, [row])) == [";{" + Signed(fn) + "} 2", RowLine(row), ""]
    ensures BlockLines(BlockTable(fn, 1, [])) == [";{" + Signed(fn) + "} 1"]
  {
    SmallDecimals();
    HeadText(fn, 1);
    HeadText(fn, 2);
    assert [row][1..] == [];
    HeadEnds(fn);
  }

  lemma {:induction false} HeadEnds(fn: int)
    ensures (";{" + Signed(fn) + "} ") + "1" == ";{" + Signed(fn) + "} 1"
    ensures (";{" + Signed(fn) + "} ") + "2" == ";{" + Signed(fn) + "} 2"
  {
  }

  /** The line of main with id 45, and that of an internal function of the file p.fctid. */
  lemma {:induction false} NameFileLines()
    ensures LineText(NameLine("main", 45, FlagWord(Main, "p.fctid"))) == "main 45 Main"
    ensures LineText(NameLine("f", 7, FlagWord(Internal, "p.fctid"))) == "f 7 p.fctid"
    ensures LineText(NameLine("f", 7, FlagWord(External, "p.fctid"))) == "f 7 External"
    ensures LineText(NameLine("f", 7, FlagWord(Init, "p.fctid"))) == "f 7 Init"
    ensures LineText(NameLine("f", 7, FlagWord(Fini, "p.fctid"))) == "f 7 Fini"
  {
    SmallDecimals();
  }

  /** Block 1 of function 7, whose last block is 45, is post-dominated by block 2. */
  lemma {:induction false} PostDominatorLine()
    ensures IpdLine(Ipd(7, 1, 2, 45)) == "7 1 2 45"
  {
    SmallDecimals();
    assert [7, 1, 2][1..] == [1, 2] && [1, 2][1..] == [2] && [2][1..] == [];
    assert Decimals([2]) == ["2"] && Decimals([1, 2]) == ["1"] + Decimals([2]);
    assert Decimals([7, 1, 2]) == ["7", "1", "2"];
    SpacedTwo("7", "1", "2");
  }

  // ----- The packets

  lemma {:induction false} SmallWords()
    ensures U32(0) == [0, 0, 0, 0] && U32(1) == [1, 0, 0, 0] && U32(2) == [2, 0, 0, 0]
    ensures U32(0x4030201) == [1, 2, 3, 4]
  {
  }

  /** One caller, function 1, and its callee 2. */
  lemma {:induction false} CallPacket()
    ensures PackCallgraph([Row(1, [2])]) == [1, 0, 0, 0] + [1, 0, 0, 0] + [1, 0, 0, 0] + [2, 0, 0, 0]
  {
    SmallWords();
    assert [Row(1, [2])][1..] == [] && [2][1..] == [];
    assert U32s([2]) == U32(2) + U32s([]);
    assert PackRows([Row(1, [2])]) == PackRow(Row(1, [2])) + PackRows([]);
  }

  /** Function 2 has one block, without successor. */
  lemma {:induction false} BlockPacket()
    ensures PackBlocks(2, 1, []) == [2, 0, 0, 0] + [1, 0, 0, 0] + [0, 0, 0, 0]
  {
    SmallWords();
  }

  /** A binary with main alone, whose id is 0. */
  lemma {:induction false} NamePacket()
    ensures PackFctids([Entry(0, Main, "m")]) == [1, 0, 0, 0] + [0, 0, 0, 0] + [4, 0, 0, 0] + ['m' as int, 0]
  {
    SmallWords();
    assert [Entry(0, Main, "m")][1..] == [];
    assert "m"[1..] == "";
    assert CString("m") == ['m' as int] + CString("");
    assert U32(4) == [4, 0, 0, 0];
    assert PackEntries([Entry(0, Main, "m")]) == PackEntry(Entry(0, Main, "m")) + PackEntries([]);
  }

  lemma {:induction false} PostDominatorPacket()
    ensures PackBlockIpd([Ipd(0, 1, 2, 2)]) ==
            [1, 0, 0, 0] + [0, 0, 0, 0] + [1, 0, 0, 0] + [2, 0, 0, 0] + [2, 0, 0, 0]
  {
    SmallWords();
    assert [Ipd(0, 1, 2, 2)][1..] == [];
    assert PackIpds([Ipd(0, 1, 2, 2)]) == PackIpd(Ipd(0, 1, 2, 2)) + PackIpds([]);
  }

  /** The numbers of the flags in a packet, and what they are read as. */
  lemma {:induction false} FlagNumbers(flag: Flag, n: nat)
    ensures FlagToInt(flag) == n && IntToFlag(n) == flag <==>
            (flag, n) in {(Internal, 0), (External, 1), (Init, 2), (Fini, 3), (Main, 4)}
    ensures n > 4 ==> IntToFlag(n) == Internal
  {
  }

  /** A relocation word: the module above, the function in the lower 32 bits. */
  lemma {:induction false} RelocationWord(m: nat, f: nat)
    requires m < TWO32 && f < TWO32
    ensures ModuleFunction(m, f) == m * 0x1_0000_0000 + f
  {
  }
}
