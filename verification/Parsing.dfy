/**
 What the parsers of picon-prelink make of any text: which lines they take, and what the last line of a
 text changes.
 */
module Parsing {
  import opened Wrappers
  import opened Text
  import opened Prelink
  import opened FunctionIds
  import opened PostDominators

  // ----- Numbers

  predicate AllDigits(s: string) {
    s != "" && forall k | 0 <= k < |s| :: '0' <= s[k] <= '9'
  }

  lemma {:induction false} NatText(s: string)
    ensures ParseNat(s).Some? <==> AllDigits(s)
    decreases |s|
  {
    if |s| > 1 {
      NatText(s[..|s| - 1]);
    }
  }

  /** int(s) takes digits after an optional sign. */
  lemma {:induction false} IntText(s: string)
    ensures ParseInt(s).Some? <==> AllDigits(s) || (s != "" && s[0] in {'-', '+'} && AllDigits(s[1..]))
    ensures s != "" && s[0] in {'-', '+'} && AllDigits(s[1..]) ==>
              && ParseInt(s[1..]).Some?
              && ParseInt(s) == Some(if s[0] == '-' then -ParseInt(s[1..]).value else ParseInt(s[1..]).value)
  {
    NatText(s);
    if s != "" {
      NatText(s[1..]);
    }
  }

  lemma {:induction false} IntTexts(words: seq<string>)
    ensures ParseInts(words).Some? <==> forall k | 0 <= k < |words| :: ParseInt(words[k]).Some?
    ensures ParseInts(words).Some? ==>
              && |ParseInts(words).value| == |words|
              && forall k | 0 <= k < |words| :: ParseInt(words[k]) == Some(ParseInts(words).value[k])
    decreases |words|
  {
    if words != [] {
      var tail := words[1..];
      IntTexts(tail);
      assert forall k | 0 <= k < |tail| :: tail[k] == words[k + 1];
      assert forall k | 0 < k < |words| :: words[k] == tail[k - 1];
    }
  }

  // ----- The last line of a text

  /** A row has a first word, whose inside is a number, and numbers after it; it replaces the row that the
      dictionary had for the same id. */
  lemma {:induction false} LastCallRow(lines: seq<string>, line: string, dict: Transitions)
    ensures var words, before, after := Split(line), ParseRows(lines, dict), ParseRows(lines + [line], dict);
            && (after.Some? <==>
                  && before.Some? && words != [] && ParseInt(Inside(words[0], 1)).Some?
                  && ParseInts(words[1..]).Some?)
            && (after.Some? ==>
                  after.value == before.value[ParseInt(Inside(words[0], 1)).value := ParseInts(words[1..]).value])
    decreases |lines|
  {
    var all := lines + [line];
    if lines == [] {
      assert all[1..] == [];
    } else {
      assert all[1..] == lines[1..] + [line];
      match ParseRow(lines[0])
      case None =>
      case Some(row) => LastCallRow(lines[1..], line, dict[row.id := row.targets]);
    }
  }

  /** The line of a function has three words, the second of which is a number; it replaces an earlier line
      about the same name. */
  lemma {:induction false} LastNameLine(lines: seq<string>, line: string, dict: NameDict)
    ensures var words, before, after := Split(line), ParseNameLines(lines, dict), ParseNameLines(lines + [line], dict);
            && (after.Some? <==> before.Some? && |words| == 3 && ParseInt(words[1]).Some?)
            && (after.Some? ==>
                  after.value == before.value[words[0] := NameEntry(ParseInt(words[1]).value, words[2])])
    decreases |lines|
  {
    var all := lines + [line];
    if lines == [] {
      assert all[1..] == [];
    } else {
      assert all[1..] == lines[1..] + [line];
      match ParseNameLine(lines[0])
      case None =>
      case Some(l) => LastNameLine(lines[1..], line, dict[l.name := NameEntry(l.id, l.flags)]);
    }
  }

  /** Any line of numbers is a row of the post-dominator table, and comes last in it. */
  lemma {:induction false} LastIpdLine(lines: seq<string>, line: string, rows: seq<seq<int>>)
    ensures var before, after := ParseIpdLines(lines, rows), ParseIpdLines(lines + [line], rows);
            && (after.Some? <==> before.Some? && ParseInts(Split(line)).Some?)
            && (after.Some? ==> after.value == before.value + [ParseInts(Split(line)).value])
    decreases |lines|
  {
    var all := lines + [line];
    if lines == [] {
      assert all[1..] == [];
    } else {
      assert all[1..] == lines[1..] + [line];
      match ParseInts(Split(lines[0]))
      case None =>
      case Some(row) => LastIpdLine(lines[1..], line, rows + [row]);
    }
  }

  /** A head line starts an empty table of a function that has none yet, a row goes into the table of the
      last head line, and a blank line changes nothing. */
  lemma {:induction false} LastBlockLine(lines: seq<string>, line: string, before: BlockDicts)
    requires ParseBBLines(lines, NO_BLOCK_DICT) == Some(before)
    ensures var words, after := Split(line), ParseBBLines(lines + [line], NO_BLOCK_DICT);
            if |line| >= 2 && line[..2] == ";{" then
              && (after.Some? <==>
                    && |words| >= 2 && ParseInt(Inside(words[0], 2)).Some? && ParseInt(words[1]).Some?
                    && ParseInt(Inside(words[0], 2)).value !in before.bb)
              && (after.Some? ==>
                    var f := ParseInt(Inside(words[0], 2)).value;
                    after.value == BlockDicts(Some(f), before.bb[f := map[]],
                                              before.nums[f := ParseInt(words[1]).value]))
            else if words == [] then after == Some(before)
            else
              && (after.Some? <==>
                    && before.current.Some? && before.current.value in before.bb
                    && ParseInt(Inside(words[0], 1)).Some? && ParseInts(words[1..]).Some?)
              && (after.Some? ==>
                    var f := before.current.value;
                    var id := ParseInt(Inside(words[0], 1)).value;
                    after.value == before.(bb := before.bb[f := before.bb[f][id := ParseInts(words[1..]).value]]))
  {
    ParseBBAppend(lines, [line], NO_BLOCK_DICT);
    assert [line][1..] == [];
    assert |line| >= 2 ==> (line[..2] == ";{" <==> line[0] == ';' && line[1] == '{') by {
      if |line| >= 2 {
        assert line[..2] == [line[0], line[1]];
      }
    }
  }
}
