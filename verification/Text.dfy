/**
 The text the pass writes and the prelink script reads: decimal numbers, blank-separated words, lines.
 */
module Text {
  import opened Wrappers

  // ----- Numbers

  function Digit(d: nat): char
    requires d < 10
  {
    ('0' as int + d) as char
  }

  predicate IsDigit(c: char) {
    '0' <= c <= '9'
  }

  function Decimal(n: nat): (s: string)
    ensures |s| > 0 && forall k | 0 <= k < |s| :: IsDigit(s[k])
  {
    if n < 10 then [Digit(n)] else Decimal(n / 10) + [Digit(n % 10)]
  }

  /** The value of a string of digits. */
  function ParseNat(s: string): Option<nat> {
    if s == "" || !IsDigit(s[|s| - 1]) then None
    else
      var d := s[|s| - 1] as int - '0' as int;
      if |s| == 1 then Some(d)
      else
        match ParseNat(s[..|s| - 1])
        case None => None
        case Some(n) => Some(10 * n + d)
  }

  lemma {:induction false} ParseDecimal(n: nat)
    ensures ParseNat(Decimal(n)) == Some(n)
    decreases n
  {
    if n >= 10 {
      ParseDecimal(n / 10);
      var s := Decimal(n);
      assert s[..|s| - 1] == Decimal(n / 10);
    }
  }

  /** A number as it is printed, whatever its sign. */
  function Signed(n: int): (s: string)
    ensures |s| > 0
  {
    if n < 0 then "-" + Decimal(-n) else Decimal(n)
  }

  /** int(s): a sign is allowed. */
  function ParseInt(s: string): Option<int> {
    if s != "" && s[0] == '-' then
      match ParseNat(s[1..])
      case None => None
      case Some(n) => Some(0 - (n as int))
    else if s != "" && s[0] == '+' then
      match ParseNat(s[1..])
      case None => None
      case Some(n) => Some(n)
    else
      match ParseNat(s)
      case None => None
      case Some(n) => Some(n)
  }

  lemma {:induction false} ParseSigned(n: int)
    ensures ParseInt(Signed(n)) == Some(n)
  {
    if n < 0 {
      ParseDecimal(-n);
      assert Signed(n)[1..] == Decimal(-n);
    } else {
      ParseDecimal(n);
      assert IsDigit(Decimal(n)[0]);
    }
  }

  // ----- Words

  predicate IsBlank(c: char) {
    c in {' ', '\n', '\t', '\r', '\U{0B}', '\U{0C}'}
  }

  predicate IsWordText(w: string) {
    w != "" && forall k | 0 <= k < |w| :: !IsBlank(w[k])
  }

  predicate AllWordText(words: seq<string>) {
    forall k | 0 <= k < |words| :: IsWordText(words[k])
  }

  function WordLength(s: string): (n: nat)
    ensures n <= |s|
    ensures forall k | 0 <= k < n :: !IsBlank(s[k])
    ensures n < |s| ==> IsBlank(s[n])
  {
    if s == "" || IsBlank(s[0]) then 0 else 1 + WordLength(s[1..])
  }

  /** s.split() */
  function Split(s: string): seq<string>
    decreases |s|
  {
    if s == "" then []
    else if IsBlank(s[0]) then Split(s[1..])
    else [s[..WordLength(s)]] + Split(s[WordLength(s)..])
  }

  /** Each word followed by a space. */
  function Spaced(words: seq<string>): string {
    if words == [] then "" else words[0] + " " + Spaced(words[1..])
  }

  lemma {:induction false} SplitWord(w: string, rest: string)
    requires IsWordText(w) && (rest != "" ==> IsBlank(rest[0]))
    ensures Split(w + rest) == [w] + Split(rest)
  {
    var s := w + rest;
    var n := WordLength(s);
    assert forall k | 0 <= k < |w| :: s[k] == w[k];
    assert rest != "" ==> s[|w|] == rest[0];
    assert n == |w|;
    assert s[..n] == w && s[n..] == rest;
  }

  lemma {:induction false} SplitSpace(rest: string)
    ensures Split(" " + rest) == Split(rest)
  {
    assert (" " + rest)[1..] == rest;
  }

  lemma {:induction false} SpacedUnfolds(words: seq<string>, last: string)
    requires words != []
    ensures Spaced(words) + last == words[0] + (" " + (Spaced(words[1..]) + last))
  {
  }

  lemma {:induction false} SplitLast(last: string)
    requires last == "" || IsWordText(last)
    ensures Split(last) == LastWord(last)
  {
    if last != "" {
      SplitWord(last, "");
      assert last + "" == last;
    }
  }

  function LastWord(last: string): seq<string> {
    if last == "" then [] else [last]
  }

  lemma {:induction false} SplitFirst(words: seq<string>, last: string)
    requires words != [] && IsWordText(words[0])
    ensures Split(Spaced(words) + last) == [words[0]] + Split(Spaced(words[1..]) + last)
  {
    var rest := Spaced(words[1..]) + last;
    SpacedUnfolds(words, last);
    SplitWord(words[0], " " + rest);
    SplitSpace(rest);
  }

  /** The words of a line come back, whether it ends with a space or with a word. */
  lemma {:induction false} SplitSpaced(words: seq<string>, last: string)
    requires AllWordText(words) && (last == "" || IsWordText(last))
    ensures Split(Spaced(words) + last) == words + LastWord(last)
    decreases |words|
  {
    if words == [] {
      SplitLast(last);
      assert Spaced(words) + last == last && words + LastWord(last) == LastWord(last);
    } else {
      SplitFirst(words, last);
      SplitSpaced(words[1..], last);
      assert words + LastWord(last) == [words[0]] + (words[1..] + LastWord(last));
    }
  }

  // ----- Lines

  predicate IsLine(s: string) {
    forall k | 0 <= k < |s| :: s[k] != '\n'
  }

  function LineLength(s: string): (n: nat)
    ensures n <= |s| && forall k | 0 <= k < n :: s[k] != '\n'
    ensures n < |s| ==> s[n] == '\n'
  {
    if s == "" || s[0] == '\n' then 0 else 1 + LineLength(s[1..])
  }

  /** The lines of a file, without their newlines. */
  function Lines(text: string): seq<string>
    decreases |text|
  {
    if text == "" then []
    else
      var n := LineLength(text);
      [text[..n]] + if n < |text| then Lines(text[n + 1..]) else []
  }

  function File(lines: seq<string>): string {
    if lines == [] then "" else lines[0] + "\n" + File(lines[1..])
  }

  predicate AllLines(lines: seq<string>) {
    forall k | 0 <= k < |lines| :: IsLine(lines[k])
  }

  lemma {:induction false} FirstLine(line: string, rest: string)
    requires IsLine(line)
    ensures Lines(line + "\n" + rest) == [line] + Lines(rest)
  {
    var text := line + "\n" + rest;
    var n := LineLength(text);
    assert text[|line|] == '\n';
    assert forall k | 0 <= k < |line| :: text[k] == line[k];
    assert n == |line|;
    assert text[..n] == line && text[n + 1..] == rest;
  }

  lemma {:induction false} LinesOfFile(lines: seq<string>)
    requires AllLines(lines)
    ensures Lines(File(lines)) == lines
    decreases |lines|
  {
    if lines != [] {
      FirstLine(lines[0], File(lines[1..]));
      LinesOfFile(lines[1..]);
    }
  }

  lemma {:induction false} FileAppend(a: seq<string>, b: seq<string>)
    ensures File(a + b) == File(a) + File(b)
    decreases |a|
  {
    if a == [] {
      assert a + b == b;
    } else {
      assert (a + b)[1..] == a[1..] + b;
      FileAppend(a[1..], b);
    }
  }

  lemma {:induction false} FileSnoc(lines: seq<string>, line: string)
    ensures File(lines + [line]) == File(lines) + line + "\n"
  {
    FileAppend(lines, [line]);
    assert [line][1..] == [];
  }

  lemma {:induction false} DecimalIsWord(n: nat)
    ensures IsWordText(Decimal(n)) && IsLine(Decimal(n))
  {
  }

  lemma {:induction false} SignedIsWord(n: int)
    ensures IsWordText(Signed(n)) && IsLine(Signed(n))
  {
    if n < 0 {
      DecimalIsWord(-n);
    } else {
      DecimalIsWord(n);
    }
  }

  lemma {:induction false} SpacedIsLine(words: seq<string>)
    requires AllWordText(words)
    ensures IsLine(Spaced(words))
    decreases |words|
  {
    if words != [] {
      SpacedIsLine(words[1..]);
    }
  }
}
