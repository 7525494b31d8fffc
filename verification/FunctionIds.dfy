/**
 The .fctid file: written by writeFunctionIDs (llvm_pass/CFI/CFI.cpp), read and packed by picon-prelink
 (parse_fctids, flag_to_int and gen_packed_fctids).
 */
module FunctionIds {
  import opened Wrappers
  import opened MonitorTables
  import opened Bytes
  import opened Packing
  import opened Text
  import Ids = Identification

  // ----- The word for a flag: that of an internal function is the path of the file itself

  function FlagWord(flag: Flag, path: string): string {
    match flag
    case Internal => path
    case External => "External"
    case Init => "Init"
    case Fini => "Fini"
    case Main => "Main"
  }

  function WordFlag(word: string): Flag {
    if word == "External" then External
    else if word == "Init" then Init
    else if word == "Fini" then Fini
    else if word == "Main" then Main
    else Internal
  }

  predicate Reserved(path: string) {
    path == "External" || path == "Init" || path == "Fini" || path == "Main"
  }

  /** Every flag is read back as it was written, unless the file is named like a flag. */
  lemma {:induction false} FlagWordsRoundTrip(path: string)
    ensures (forall flag: Flag :: WordFlag(FlagWord(flag, path)) == flag) <==> !Reserved(path)
  {
    assert Reserved(path) ==> WordFlag(FlagWord(Internal, path)) != Internal;
  }

  // ----- Lines

  datatype NameLine = NameLine(name: string, id: int, flags: string)

  function LineText(l: NameLine): string {
    l.name + " " + Signed(l.id) + " " + l.flags
  }

  function LineTexts(ls: seq<NameLine>): seq<string> {
    if ls == [] then [] else [LineText(ls[0])] + LineTexts(ls[1..])
  }

  /** There must be three words. */
  function ParseNameLine(line: string): Option<NameLine> {
    var words := Split(line);
    if |words| != 3 then None
    else
      match ParseInt(words[1])
      case None => None
      case Some(id) => Some(NameLine(words[0], id, words[2]))
  }

  lemma {:induction false} NameLineParses(l: NameLine)
    requires IsWordText(l.name) && IsWordText(l.flags)
    ensures IsLine(LineText(l)) && ParseNameLine(LineText(l)) == Some(l)
  {
    SignedIsWord(l.id);
    ParseSigned(l.id);
    var words := [l.name, Signed(l.id)];
    SplitSpaced(words, l.flags);
    SpacedIsLine(words);
    assert words[1..] == [Signed(l.id)] && words[1..][1..] == [];
    assert Spaced(words[1..]) == Signed(l.id) + " " + Spaced([]);
    assert Spaced(words) == l.name + " " + Spaced(words[1..]);
    assert Spaced(words) + l.flags == LineText(l);
    assert words + LastWord(l.flags) == [l.name, Signed(l.id), l.flags];
  }

  // ----- parse_fctids

  datatype NameEntry = NameEntry(id: int, flags: string)

  type NameDict = map<string, NameEntry>

  function ParseNameLines(lines: seq<string>, dict: NameDict): Option<NameDict>
    decreases |lines|
  {
    if lines == [] then Some(dict)
    else
      match ParseNameLine(lines[0])
      case None => None
      case Some(l) => ParseNameLines(lines[1..], dict[l.name := NameEntry(l.id, l.flags)])
  }

  method ParseFctids(text: string) returns (fcts: Option<NameDict>)
    ensures fcts == ParseNameLines(Lines(text), map[])
  {
    var lines := Lines(text);
    var dict: NameDict := map[];
    for i := 0 to |lines|
      invariant ParseNameLines(lines, map[]) == ParseNameLines(lines[i..], dict)
    {
      var l := ParseNameLine(lines[i]);
      if l.None? {
        return None;
      }
      dict := dict[l.value.name := NameEntry(l.value.id, l.value.flags)];
      assert lines[i..][1..] == lines[i + 1..];
    }
    assert lines[|lines|..] == [];
    return Some(dict);
  }

  // ----- What is written is read back

  function EntryIn(file: Ids.IdFile, name: string, path: string): NameEntry
    requires name in file
  {
    NameEntry(file[name].id, FlagWord(file[name].flag, path))
  }

  /** The dictionary says of the names it has what the file says. */
  predicate Agrees(dict: NameDict, file: Ids.IdFile, path: string) {
    forall a | a in dict :: a in file && dict[a] == EntryIn(file, a, path)
  }

  predicate HasLine(ls: seq<NameLine>, name: string) {
    exists k | 0 <= k < |ls| :: ls[k].name == name
  }

  predicate DistinctNames(ls: seq<NameLine>) {
    forall j, k | 0 <= j < k < |ls| :: ls[j].name != ls[k].name
  }

  predicate AreLinesOf(ls: seq<NameLine>, file: Ids.IdFile, path: string) {
    forall k | 0 <= k < |ls| ::
      && ls[k].name in file
      && ls[k] == NameLine(ls[k].name, file[ls[k].name].id, FlagWord(file[ls[k].name].flag, path))
  }

  predicate WordNames(file: Ids.IdFile) {
    forall a | a in file :: IsWordText(a)
  }

  lemma {:induction false} LinesParse(ls: seq<NameLine>, dict: NameDict, file: Ids.IdFile, path: string)
    requires AreLinesOf(ls, file, path) && WordNames(file) && IsWordText(path) && Agrees(dict, file, path)
    ensures AllLines(LineTexts(ls)) && ParseNameLines(LineTexts(ls), dict).Some?
    ensures Agrees(ParseNameLines(LineTexts(ls), dict).value, file, path)
    ensures forall a :: a in ParseNameLines(LineTexts(ls), dict).value <==> a in dict || HasLine(ls, a)
    decreases |ls|
  {
    if ls != [] {
      var l := ls[0];
      assert IsWordText(l.flags);
      NameLineParses(l);
      var next := dict[l.name := NameEntry(l.id, l.flags)];
      LinesParse(ls[1..], next, file, path);
      forall a ensures HasLine(ls, a) <==> a == l.name || HasLine(ls[1..], a) {
        FirstOrLater(ls, a);
      }
    }
  }

  lemma {:induction false} FirstOrLater(ls: seq<NameLine>, a: string)
    requires ls != []
    ensures HasLine(ls, a) <==> a == ls[0].name || HasLine(ls[1..], a)
  {
    if HasLine(ls, a) && a != ls[0].name {
      var k :| 0 <= k < |ls| && ls[k].name == a;
      assert ls[1..][k - 1].name == a;
    }
    if HasLine(ls[1..], a) {
      var k :| 0 <= k < |ls[1..]| && ls[1..][k].name == a;
      assert ls[k + 1].name == a;
    }
  }

  /** The buffer that writeFunctionIDs fills and writes, in the order of a hash table. */
  method WriteFile(file: Ids.IdFile, path: string) returns (text: string, ghost ls: seq<NameLine>)
    ensures text == File(LineTexts(ls))
    ensures AreLinesOf(ls, file, path) && forall a :: HasLine(ls, a) <==> a in file
    ensures DistinctNames(ls)
    ensures exists lines :: AreLinesOf(lines, file, path) && DistinctNames(lines) && text == File(LineTexts(lines))
  {
    text, ls := "", [];
    var rest := file.Keys;
    while rest != {}
      invariant rest <= file.Keys && text == File(LineTexts(ls)) && AreLinesOf(ls, file, path)
      invariant forall a | a in file :: a in rest || HasLine(ls, a)
      invariant DistinctNames(ls) && forall k | 0 <= k < |ls| :: ls[k].name !in rest
    {
      var name :| name in rest;
      var line := LineText(NameLine(name, file[name].id, FlagWord(file[name].flag, path)));
      text := text + line + "\n";
      ghost var l := NameLine(name, file[name].id, FlagWord(file[name].flag, path));
      OneMoreLine(ls, l);
      ls := ls + [l];
      rest := rest - {name};
    }
  }

  lemma {:induction false} OneMoreLine(ls: seq<NameLine>, l: NameLine)
    ensures File(LineTexts(ls + [l])) == File(LineTexts(ls)) + LineText(l) + "\n"
    ensures HasLine(ls + [l], l.name) && forall a | HasLine(ls, a) :: HasLine(ls + [l], a)
  {
    LineTextsSnoc(ls, l);
    FileAppend(LineTexts(ls), [LineText(l)]);
    assert File([LineText(l)]) == LineText(l) + "\n" + File([]);
    assert (ls + [l])[|ls|] == l;
    forall a | HasLine(ls, a) ensures HasLine(ls + [l], a) {
      var k :| 0 <= k < |ls| && ls[k].name == a;
      assert (ls + [l])[k].name == a;
    }
  }

  lemma {:induction false} LineTextsSnoc(ls: seq<NameLine>, l: NameLine)
    ensures LineTexts(ls + [l]) == LineTexts(ls) + [LineText(l)]
    decreases |ls|
  {
    if ls == [] {
      assert ls + [l] == [l] && [l][1..] == [];
    } else {
      assert (ls + [l])[1..] == ls[1..] + [l];
      LineTextsSnoc(ls[1..], l);
    }
  }

  /** parse_fctids reads exactly the file that the pass wrote, whatever the order of its lines. */
  lemma {:induction false} FctidTextRoundTrip(file: Ids.IdFile, path: string, ls: seq<NameLine>)
    requires WordNames(file) && IsWordText(path)
    requires AreLinesOf(ls, file, path) && forall a :: HasLine(ls, a) <==> a in file
    ensures ParseNameLines(Lines(File(LineTexts(ls))), map[]) == Some(map a | a in file :: EntryIn(file, a, path))
  {
    LinesParse(ls, map[], file, path);
    LinesOfFile(LineTexts(ls));
    var dict := ParseNameLines(LineTexts(ls), map[]).value;
    assert dict.Keys == file.Keys;
    assert dict == map a | a in file :: EntryIn(file, a, path);
  }

  // ----- The next run of the pass reads the file as a stream

  function SkipBlanks(s: string): (rest: string)
    ensures |rest| <= |s| && (rest != "" ==> !IsBlank(rest[0]))
  {
    if s != "" && IsBlank(s[0]) then SkipBlanks(s[1..]) else s
  }

  /** stream >> word, and what is left of the stream. */
  function ReadWord(s: string): (r: Option<(string, string)>)
    ensures r.Some? ==> |r.value.1| < |s|
  {
    var t := SkipBlanks(s);
    var n := WordLength(t);
    if n == 0 then None else Some((t[..n], t[n..]))
  }

  function DigitsLength(s: string): (n: nat)
    ensures n <= |s| && forall k | 0 <= k < n :: IsDigit(s[k])
    ensures n < |s| ==> !IsDigit(s[n])
  {
    if s == "" || !IsDigit(s[0]) then 0 else 1 + DigitsLength(s[1..])
  }

  /** stream >> number, for an unsigned 32-bit number: digits after an optional sign, up to the first
      other character.  A minus sign wraps around; a number that does not fit fails. */
  function ReadU32(s: string): (r: Option<(nat, string)>)
    ensures r.Some? ==> |r.value.1| <= |s|
  {
    var t := SkipBlanks(s);
    var signed := t != "" && (t[0] == '-' || t[0] == '+');
    var u := if signed then t[1..] else t;
    var n := DigitsLength(u);
    match ParseNat(u[..n])
    case None => None
    case Some(v) =>
      if v >= TWO32 then None
      else Some((if signed && t[0] == '-' && v > 0 then TWO32 - v else v, u[n..]))
  }

  /** Reading stops at the first read that fails, which the end of the file makes fail too. */
  function ReadStream(s: string, dict: NameDict): NameDict
    decreases |s|
  {
    match ReadLine(s)
    case None => dict
    case Some((l, rest)) => ReadStream(rest, dict[l.name := NameEntry(l.id, l.flags)])
  }

  /** The three reads of one turn of the loop. */
  function ReadLine(s: string): (r: Option<(NameLine, string)>)
    ensures r.Some? ==> |r.value.1| < |s|
  {
    match ReadWord(s)
    case None => None
    case Some((name, s1)) =>
      match ReadU32(s1)
      case None => None
      case Some((id, s2)) =>
        match ReadWord(s2)
        case None => None
        case Some((flags, s3)) => Some((NameLine(name, id, flags), s3))
  }

  method ReadNames(text: string) returns (dict: NameDict)
    ensures dict == ReadStream(text, map[])
  {
    var stream := text;
    dict := map[];
    while true
      invariant ReadStream(text, map[]) == ReadStream(stream, dict)
      decreases |stream|
    {
      var line := ReadLine(stream);
      if line.None? {
        return;
      }
      dict := dict[line.value.0.name := NameEntry(line.value.0.id, line.value.0.flags)];
      stream := line.value.1;
    }
  }

  lemma {:induction false} ReadsWord(w: string, rest: string)
    requires IsWordText(w) && (rest != "" ==> IsBlank(rest[0]))
    ensures ReadWord(w + rest) == Some((w, rest)) && ReadWord(" " + (w + rest)) == Some((w, rest))
  {
    var s := w + rest;
    assert s[0] == w[0];
    assert forall k | 0 <= k < |w| :: s[k] == w[k];
    assert rest != "" ==> s[|w|] == rest[0];
    assert WordLength(s) == |w| && s[..|w|] == w && s[|w|..] == rest;
    assert (" " + s)[1..] == s;
  }

  lemma {:induction false} ReadsNumber(n: nat, rest: string)
    requires n < TWO32 && (rest != "" ==> !IsDigit(rest[0]))
    ensures ReadU32(" " + (Decimal(n) + rest)) == Some((n, rest))
  {
    var s := Decimal(n) + rest;
    assert s[0] == Decimal(n)[0];
    assert (" " + s)[1..] == s && SkipBlanks(" " + s) == s;
    assert forall k | 0 <= k < |Decimal(n)| :: s[k] == Decimal(n)[k];
    assert rest != "" ==> s[|Decimal(n)|] == rest[0];
    assert DigitsLength(s) == |Decimal(n)| && s[..|Decimal(n)|] == Decimal(n) && s[|Decimal(n)|..] == rest;
    ParseDecimal(n);
  }

  lemma {:induction false} Regroup(a: string, b: string, c: string, rest: string)
    ensures a + " " + b + " " + c + rest == a + (" " + (b + (" " + (c + rest))))
  {
  }

  lemma {:induction false} ReadsLine(l: NameLine, rest: string)
    requires IsWordText(l.name) && IsWordText(l.flags) && IsWord(l.id)
    requires rest != "" ==> IsBlank(rest[0])
    ensures ReadLine(LineText(l) + rest) == Some((l, rest))
  {
    var third := " " + (l.flags + rest);
    Regroup(l.name, Signed(l.id), l.flags, rest);
    ReadsWord(l.name, " " + (Signed(l.id) + third));
    ReadsNumber(l.id, third);
    ReadsWord(l.flags, rest);
  }

  lemma {:induction false} NewlineIsSkipped(s: string, dict: NameDict)
    ensures ReadStream("\n" + s, dict) == ReadStream(s, dict)
  {
    assert ("\n" + s)[1..] == s;
    assert SkipBlanks("\n" + s) == SkipBlanks(s);
    assert ReadWord("\n" + s) == ReadWord(s);
    assert ReadLine("\n" + s) == ReadLine(s);
  }

  predicate WordIds(file: Ids.IdFile) {
    forall a | a in file :: IsWord(file[a].id)
  }

  /** Line by line or as a stream, the file says the same. */
  lemma {:induction false} StreamReadsLines(ls: seq<NameLine>, dict: NameDict, file: Ids.IdFile, path: string)
    requires AreLinesOf(ls, file, path) && WordNames(file) && WordIds(file) && IsWordText(path)
    ensures ParseNameLines(LineTexts(ls), dict) == Some(ReadStream(File(LineTexts(ls)), dict))
    decreases |ls|
  {
    if ls != [] {
      var l := ls[0];
      assert IsWordText(l.flags) && IsWordText(l.name) && IsWord(l.id);
      FirstLineReads(l, LineTexts(ls[1..]), dict);
      StreamReadsLines(ls[1..], dict[l.name := NameEntry(l.id, l.flags)], file, path);
    }
  }

  lemma {:induction false} FirstLineReads(l: NameLine, lines: seq<string>, dict: NameDict)
    requires IsWordText(l.name) && IsWordText(l.flags) && IsWord(l.id)
    ensures var next := dict[l.name := NameEntry(l.id, l.flags)];
            && ReadStream(File([LineText(l)] + lines), dict) == ReadStream(File(lines), next)
            && ParseNameLines([LineText(l)] + lines, dict) == ParseNameLines(lines, next)
  {
    var rest := File(lines);
    NameLineParses(l);
    assert ([LineText(l)] + lines)[1..] == lines;
    ReadsLine(l, "\n" + rest);
    assert File([LineText(l)] + lines) == LineText(l) + ("\n" + rest);
    NewlineIsSkipped(rest, dict[l.name := NameEntry(l.id, l.flags)]);
  }

  /** The next run of the pass reads exactly the file that the last one wrote. */
  lemma {:induction false} PassReadsItsFile(file: Ids.IdFile, path: string, ls: seq<NameLine>)
    requires WordNames(file) && WordIds(file) && IsWordText(path)
    requires AreLinesOf(ls, file, path) && forall a :: HasLine(ls, a) <==> a in file
    ensures ReadStream(File(LineTexts(ls)), map[]) == map a | a in file :: EntryIn(file, a, path)
  {
    LinesParse(ls, map[], file, path);
    LinesOfFile(LineTexts(ls));
    StreamReadsLines(ls, map[], file, path);
    FctidTextRoundTrip(file, path, ls);
  }

  // ----- gen_packed_fctids

  /** The order in which the script compares names. */
  predicate Less(a: string, b: string) {
    b != [] && (a == [] || a[0] < b[0] || (a[0] == b[0] && Less(a[1..], b[1..])))
  }

  lemma {:induction false} LessIsTotal(a: string, b: string)
    ensures Less(a, b) || Less(b, a) || a == b
    ensures !(Less(a, b) && Less(b, a)) && (a == b ==> !Less(a, b))
    decreases |a|
  {
    if a != [] && b != [] && a[0] == b[0] {
      LessIsTotal(a[1..], b[1..]);
      assert a == [a[0]] + a[1..] && b == [b[0]] + b[1..];
    }
  }

  lemma {:induction false} LessIsTransitive(a: string, b: string, c: string)
    requires Less(a, b) && Less(b, c)
    ensures Less(a, c)
    decreases |a|
  {
    if a != [] && a[0] == b[0] == c[0] {
      LessIsTransitive(a[1..], b[1..], c[1..]);
    }
  }

  /** The items are compared by id and, for the same id, by name. */
  predicate NotAfter(id: int, name: string, id': int, name': string) {
    id < id' || (id == id' && !Less(name', name))
  }

  lemma {:induction false} NotAfterIsTotal(id: int, name: string, id': int, name': string)
    ensures NotAfter(id, name, id', name') || NotAfter(id', name', id, name)
  {
    LessIsTotal(name, name');
  }

  lemma {:induction false} NotAfterIsTransitive(i: int, a: string, j: int, b: string, k: int, c: string)
    requires NotAfter(i, a, j, b) && NotAfter(j, b, k, c)
    ensures NotAfter(i, a, k, c)
  {
    LessIsTotal(a, b);
    LessIsTotal(b, c);
    LessIsTotal(a, c);
    if Less(a, b) && Less(b, c) {
      LessIsTransitive(a, b, c);
    }
  }

  predicate InOrder(fcts: NameDict, a: string, b: string)
    requires a in fcts && b in fcts
  {
    NotAfter(fcts[a].id, a, fcts[b].id, b)
  }

  predicate SortedBy(order: seq<string>, fcts: NameDict) {
    && (forall k | 0 <= k < |order| :: order[k] in fcts)
    && forall j, k | 0 <= j < k < |order| :: order[j] != order[k] && InOrder(fcts, order[j], order[k])
  }

  lemma {:induction false} LeastItem(names: set<string>, fcts: NameDict) returns (least: string)
    requires names != {} && names <= fcts.Keys
    ensures least in names && forall a | a in names :: InOrder(fcts, least, a)
    decreases |names|
  {
    var some :| some in names;
    least := some;
    LessIsTotal(some, some);
    if names != {some} {
      var other := LeastItem(names - {some}, fcts);
      NotAfterIsTotal(fcts[some].id, some, fcts[other].id, other);
      if InOrder(fcts, other, some) {
        least := other;
      } else {
        forall a | a in names ensures InOrder(fcts, some, a) {
          if a != some {
            assert a in names - {some} && InOrder(fcts, other, a);
            NotAfterIsTransitive(fcts[some].id, some, fcts[other].id, other, fcts[a].id, a);
          }
        }
      }
    }
  }

  /** order is the sorted beginning, and rest what comes after it. */
  predicate Selected(order: seq<string>, rest: set<string>, fcts: NameDict) {
    && SortedBy(order, fcts) && rest <= fcts.Keys
    && (forall a | a in fcts :: a in rest || a in order)
    && (forall k, b | 0 <= k < |order| && b in rest :: order[k] != b && InOrder(fcts, order[k], b))
  }

  lemma {:induction false} SelectNext(order: seq<string>, rest: set<string>, fcts: NameDict, name: string)
    requires Selected(order, rest, fcts) && name in rest
    requires forall b | b in rest :: InOrder(fcts, name, b)
    ensures Selected(order + [name], rest - {name}, fcts)
  {
  }

  /** The items of the dictionary by increasing id, and by name for the same id. */
  method SortedNames(fcts: NameDict) returns (order: seq<string>)
    ensures SortedBy(order, fcts) && |order| == |fcts| && forall a | a in fcts :: a in order
  {
    order := [];
    var rest := fcts.Keys;
    assert |fcts| == |fcts.Keys|;
    while rest != {}
      invariant rest <= fcts.Keys && |order| + |rest| == |fcts|
      invariant Selected(order, rest, fcts)
      decreases |rest|
    {
      ghost var least := LeastItem(rest, fcts);
      var name :| name in rest && forall b | b in rest :: InOrder(fcts, name, b);
      SelectNext(order, rest, fcts, name);
      order := order + [name];
      rest := rest - {name};
    }
  }

  predicate PackableNames(fcts: NameDict) {
    IsWord(|fcts|) && forall a | a in fcts :: IsName(a) && IsWord(fcts[a].id)
  }

  function EntryFor(fcts: NameDict, name: string): Entry
    requires name in fcts && IsWord(fcts[name].id)
  {
    Entry(fcts[name].id, WordFlag(fcts[name].flags), name)
  }

  /** The entries of the dictionary, by increasing id, and by name for the same id. */
  predicate SortsEntries(entries: seq<Entry>, fcts: NameDict) {
    && |entries| == |fcts|
    && (forall k | 0 <= k < |entries| ::
          && entries[k].name in fcts && IsWord(fcts[entries[k].name].id)
          && entries[k] == EntryFor(fcts, entries[k].name))
    && forall j, k | 0 <= j < k < |entries| ::
         entries[j].name != entries[k].name
         && NotAfter(entries[j].id, entries[j].name, entries[k].id, entries[k].name)
  }

  lemma {:induction false} SortedOrderSorts(order: seq<string>, fcts: NameDict, entries: seq<Entry>)
    requires PackableNames(fcts) && SortedBy(order, fcts) && |entries| == |order| == |fcts|
    requires forall k | 0 <= k < |order| :: entries[k] == EntryFor(fcts, order[k])
    ensures SortsEntries(entries, fcts)
  {
    assert forall k | 0 <= k < |entries| :: entries[k].name == order[k];
  }

  method GenPackedFctids(fcts: NameDict) returns (bytes: Packet, ghost entries: seq<Entry>)
    requires PackableNames(fcts)
    ensures SortsEntries(entries, fcts) && AllEntries(entries)
    ensures bytes == PackFctids(entries)
    ensures exists es :: SortsEntries(es, fcts) && AllEntries(es) && bytes == PackFctids(es)
  {
    var order := SortedNames(fcts);
    var packed;
    packed, entries := PackInOrder(order, fcts);
    SortedOrderSorts(order, fcts, entries);
    bytes := U32(|fcts|) + packed;
  }

  method PackInOrder(order: seq<string>, fcts: NameDict) returns (bytes: Packet, ghost entries: seq<Entry>)
    requires PackableNames(fcts) && forall k | 0 <= k < |order| :: order[k] in fcts
    ensures |entries| == |order| && forall k | 0 <= k < |order| :: entries[k] == EntryFor(fcts, order[k])
    ensures AllEntries(entries) && bytes == PackEntries(entries)
  {
    bytes, entries := [], [];
    for i := 0 to |order|
      invariant |entries| == i && AllEntries(entries) && bytes == PackEntries(entries)
      invariant forall k | 0 <= k < i :: entries[k] == EntryFor(fcts, order[k])
    {
      var e := fcts[order[i]];
      bytes := bytes + U32(e.id) + U32(FlagToInt(WordFlag(e.flags))) + CString(order[i]);
      PackEntriesSnoc(entries, EntryFor(fcts, order[i]));
      entries := entries + [EntryFor(fcts, order[i])];
    }
  }

  lemma {:induction false} PackEntriesSnoc(entries: seq<Entry>, e: Entry)
    requires AllEntries(entries) && IsWord(e.id) && IsName(e.name)
    ensures AllEntries(entries + [e])
    ensures PackEntries(entries + [e]) == PackEntries(entries) + U32(e.id) + U32(FlagToInt(e.flag)) + CString(e.name)
    decreases |entries|
  {
    if entries == [] {
      assert entries + [e] == [e] && [e][1..] == [];
      assert PackEntries([e]) == PackEntry(e) + [];
    } else {
      assert (entries + [e])[1..] == entries[1..] + [e];
      PackEntriesSnoc(entries[1..], e);
    }
  }

  // ----- The whole way of the function table, up to the packet

  /** The entries are those of the file, each at the place of its id. */
  ghost predicate InPlace(entries: seq<Entry>, file: Ids.IdFile) {
    && |entries| == |file|
    && forall k | 0 <= k < |entries| ::
         && entries[k].id == k && entries[k].name in file
         && file[entries[k].name] == Ids.Known(k, entries[k].flag)
  }

  lemma {:induction false} SortedEntriesAreInPlace(file: Ids.IdFile, path: string, entries: seq<Entry>)
    requires Ids.Numbered(Ids.IdsOf(file)) && !Reserved(path)
    requires SortsEntries(entries, map a | a in file :: EntryIn(file, a, path))
    ensures InPlace(entries, file)
  {
    var fcts := map a | a in file :: EntryIn(file, a, path);
    assert fcts.Keys == file.Keys && |fcts| == |fcts.Keys| && |file| == |file.Keys|;
    FlagWordsRoundTrip(path);
    var ids := Ids.IdsOf(file);
    forall k | 0 <= k < |entries| ensures entries[k].id < |entries| {
      assert entries[k].name in ids && ids[entries[k].name] == entries[k].id;
    }
    forall j, k | 0 <= j < k < |entries| ensures entries[j].id < entries[k].id {
      assert ids[entries[j].name] == entries[j].id && ids[entries[k].name] == entries[k].id;
    }
    forall k | 0 <= k < |entries| ensures entries[k].id == k {
      AtLeastItsIndex(entries, k);
      AtMostItsIndex(entries, k);
    }
  }

  lemma {:induction false} AtLeastItsIndex(entries: seq<Entry>, k: nat)
    requires k < |entries| && forall i, j | 0 <= i < j < |entries| :: entries[i].id < entries[j].id
    ensures entries[k].id >= k
    decreases k
  {
    if k > 0 {
      AtLeastItsIndex(entries, k - 1);
    }
  }

  lemma {:induction false} AtMostItsIndex(entries: seq<Entry>, k: nat)
    requires k < |entries| && forall i, j | 0 <= i < j < |entries| :: entries[i].id < entries[j].id
    requires forall i | 0 <= i < |entries| :: entries[i].id < |entries|
    ensures entries[k].id <= k
    decreases |entries| - k
  {
    if k < |entries| - 1 {
      AtMostItsIndex(entries, k + 1);
    }
  }

  /** The file that the pass leaves, read and packed: one entry per function, in the order of the ids,
      with its name and its flag. */
  method PackNames(file: Ids.IdFile, path: string) returns (bytes: Packet, ghost entries: seq<Entry>)
    requires Ids.Numbered(Ids.IdsOf(file)) && IsWord(|file|)
    requires WordNames(file) && (forall a | a in file :: IsName(a))
    requires IsWordText(path) && !Reserved(path)
    ensures InPlace(entries, file) && AllEntries(entries) && IsWord(|entries|)
    ensures bytes == PackFctids(entries)
    ensures exists es :: InPlace(es, file) && AllEntries(es) && IsWord(|es|) && bytes == PackFctids(es)
  {
    var text, ls := WriteFile(file, path);
    FctidTextRoundTrip(file, path, ls);
    var fcts := ParseFctids(text);
    FileIsPackable(file, path, fcts.value);
    bytes, entries := GenPackedFctids(fcts.value);
    SortedEntriesAreInPlace(file, path, entries);
  }

  lemma {:induction false} FileIsPackable(file: Ids.IdFile, path: string, fcts: NameDict)
    requires Ids.Numbered(Ids.IdsOf(file)) && IsWord(|file|) && forall a | a in file :: IsName(a)
    requires fcts == map a | a in file :: EntryIn(file, a, path)
    ensures PackableNames(fcts)
  {
    var ids := Ids.IdsOf(file);
    assert fcts.Keys == file.Keys && |fcts| == |fcts.Keys| && |file| == |file.Keys|;
    assert forall a | a in file :: ids[a] == file[a].id < |ids|;
  }
}
