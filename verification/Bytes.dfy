/**
 Little-endian words and C strings in a packet, as struct.pack writes them (prelink/picon-prelink)
 and as the packed structures of include/picon/shared.h are read.
 */
module Bytes {
  import opened Wrappers
  import opened MonitorTables

  type Byte = b: nat | b < 256

  type Packet = seq<Byte>

  function U32(n: nat): (bytes: Packet)
    requires n < TWO32
    ensures |bytes| == 4
  {
    seq(4, k requires 0 <= k < 4 => ByteOf(n, k))
  }

  function ByteOf(n: nat, k: nat): Byte
    requires n < TWO32 && k < 4
  {
    if k == 0 then n % 256 else if k == 1 then n / 256 % 256 else if k == 2 then n / 65536 % 256 else n / 16777216
  }

  /** The word at an offset; None past the end of the packet. */
  function GetU32(bytes: Packet, at: nat): Option<nat> {
    if at + 4 > |bytes| then None
    else Some(Word(bytes[at], bytes[at + 1], bytes[at + 2], bytes[at + 3]))
  }

  function Word(a: nat, b: nat, c: nat, d: nat): nat {
    a + 256 * b + 65536 * c + 16777216 * d
  }

  function U32s(words: seq<int>): (bytes: Packet)
    requires forall k | 0 <= k < |words| :: 0 <= words[k] < TWO32
    ensures |bytes| == 4 * |words|
  {
    if words == [] then [] else U32(words[0]) + U32s(words[1..])
  }

  lemma {:induction false} WordIsItsBytes(n: nat)
    requires n < TWO32
    ensures Word(ByteOf(n, 0), ByteOf(n, 1), ByteOf(n, 2), ByteOf(n, 3)) == n
  {
    var a, b, c := n / 256, n / 65536, n / 16777216;
    assert a / 256 == b && b / 256 == c;
    assert n == 256 * a + n % 256 && a == 256 * b + a % 256 && b == 256 * c + b % 256;
  }

  /** From offset at on, the packet is exactly part. */
  predicate Holds(bytes: Packet, at: nat, part: Packet) {
    at <= |bytes| && bytes[at..] == part
  }

  lemma {:induction false} HoldsAfter(bytes: Packet, at: nat, a: Packet, b: Packet)
    requires Holds(bytes, at, a + b)
    ensures Holds(bytes, at + |a|, b)
    ensures forall k | 0 <= k < |a| :: bytes[at + k] == a[k]
  {
    assert bytes[at + |a|..] == bytes[at..][|a|..] == b;
    assert forall k | 0 <= k < |a| :: bytes[at + k] == bytes[at..][k];
  }

  lemma {:induction false} HoldsWord(bytes: Packet, at: nat, n: nat, rest: Packet)
    requires n < TWO32 && Holds(bytes, at, U32(n) + rest)
    ensures GetU32(bytes, at) == Some(n) && Holds(bytes, at + 4, rest)
  {
    HoldsAfter(bytes, at, U32(n), rest);
    WordIsItsBytes(n);
    var w := U32(n);
    assert bytes[at + 0] == w[0] && bytes[at + 1] == w[1] && bytes[at + 2] == w[2] && bytes[at + 3] == w[3];
  }

  lemma {:induction false} Assoc3(a: Packet, b: Packet, c: Packet)
    ensures (a + b) + c == a + (b + c)
  {
  }

  lemma {:induction false} Assoc4(a: Packet, b: Packet, c: Packet, d: Packet)
    ensures ((a + b) + c) + d == a + (b + (c + d))
  {
  }

  // ----- Strings

  function CString(name: string): (bytes: Packet)
    requires IsName(name)
    ensures |bytes| == |name| + 1
  {
    if name == "" then [0] else [name[0] as int] + CString(name[1..])
  }

  predicate IsName(name: string) {
    forall k | 0 <= k < |name| :: 0 < name[k] as int < 256
  }

  /** The characters from an offset to the next zero byte; None if there is no such byte. */
  function GetString(bytes: Packet, at: nat): Option<string>
    decreases |bytes| - at
  {
    if at >= |bytes| then None
    else if bytes[at] == 0 then Some("")
    else
      match GetString(bytes, at + 1)
      case None => None
      case Some(tail) => Some([bytes[at] as char] + tail)
  }

  lemma {:induction false} HoldsString(bytes: Packet, at: nat, name: string, rest: Packet)
    requires IsName(name) && Holds(bytes, at, CString(name) + rest)
    ensures GetString(bytes, at) == Some(name) && Holds(bytes, at + |name| + 1, rest)
    decreases |name|
  {
    if name == "" {
      HoldsAfter(bytes, at, [0], rest);
      assert bytes[at + 0] == 0;
    } else {
      var first: Packet := [name[0] as int];
      Assoc3(first, CString(name[1..]), rest);
      HoldsAfter(bytes, at, first, CString(name[1..]) + rest);
      assert bytes[at + 0] == first[0];
      HoldsString(bytes, at + 1, name[1..], rest);
      assert bytes[at] as char == name[0] && name == [name[0]] + name[1..];
    }
  }
}
