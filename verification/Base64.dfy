/** Base64 with padding, section 4 of RFC 4648: the encoding of Go's base64.StdEncoding. */
module Base64 {
  import opened Wrappers

  type Byte = b: int | 0 <= b < 256
  type Bytes = seq<Byte>

  const PAD: Byte := 61

  /** The character of a 6-bit digit: A-Z, a-z, 0-9, + and /. */
  function Digit(d: nat): Byte
  {
    if d < 26 then 65 + d
    else if d < 52 then 97 + d - 26
    else if d < 62 then 48 + d - 52
    else if d == 62 then 43
    else if d == 63 then 47
    else PAD
  }

  function Value(c: Byte): (d: Option<nat>)
    ensures d.Some? ==> d.value < 64
  {
    if 65 <= c < 91 then Some(c - 65)
    else if 97 <= c < 123 then Some(c - 97 + 26)
    else if 48 <= c < 58 then Some(c - 48 + 52)
    else if c == 43 then Some(62)
    else if c == 47 then Some(63)
    else None
  }

  // Three bytes as four digits, and back.

  function First(x: Byte): nat { x / 4 }

  function Second(x: Byte, y: Byte): nat { x % 4 * 16 + y / 16 }

  function Third(y: Byte, z: Byte): nat { y % 16 * 4 + z / 64 }

  function Fourth(z: Byte): nat { z % 64 }

  function Left(a: nat, b: nat): Byte
    requires a < 64 && b < 64
  {
    a * 4 + b / 16
  }

  function Middle(b: nat, e: nat): Byte
    requires b < 64 && e < 64
  {
    b % 16 * 16 + e / 4
  }

  function Right(e: nat, f: nat): Byte
    requires e < 64 && f < 64
  {
    e % 4 * 64 + f
  }

  lemma Regroup(x: Byte, y: Byte, z: Byte)
    ensures First(x) < 64 && Second(x, y) < 64 && Third(y, z) < 64 && Fourth(z) < 64
    ensures Left(First(x), Second(x, y)) == x && Middle(Second(x, y), Third(y, z)) == y && Right(Third(y, z), Fourth(z)) == z
    ensures (y == 0 ==> Second(x, y) % 16 == 0) && (z == 0 ==> Third(y, z) % 4 == 0)
  {
  }

  lemma Ungroup(a: nat, b: nat, e: nat, f: nat)
    requires a < 64 && b < 64 && e < 64 && f < 64
    ensures var x, y, z := Left(a, b), Middle(b, e), Right(e, f);
      First(x) == a && Second(x, y) == b && Third(y, z) == e && Fourth(z) == f
    ensures b % 16 == 0 ==> Second(Left(a, b), 0) == b
    ensures e % 4 == 0 ==> Third(Middle(b, e), 0) == e
  {
  }

  function Encode(s: Bytes): Bytes {
    if |s| == 0 then []
    else if |s| == 1 then [Digit(First(s[0])), Digit(Second(s[0], 0)), PAD, PAD]
    else if |s| == 2 then [Digit(First(s[0])), Digit(Second(s[0], s[1])), Digit(Third(s[1], 0)), PAD]
    else EncodeThree(s[0], s[1], s[2]) + Encode(s[3..])
  }

  function EncodeThree(x: Byte, y: Byte, z: Byte): Bytes {
    [Digit(First(x)), Digit(Second(x, y)), Digit(Third(y, z)), Digit(Fourth(z))]
  }

  /** The bytes of one group of four characters; padding ends the text and its spare bits must be zero. */
  function DecodeGroup(c: Bytes, last: bool): Option<Bytes>
    requires |c| == 4
  {
    var a, b, e, f := Value(c[0]), Value(c[1]), Value(c[2]), Value(c[3]);
    if a.None? || b.None? then None
    else if last && c[2] == PAD && c[3] == PAD then
      if b.value % 16 != 0 then None else Some([Left(a.value, b.value)])
    else if e.None? then None
    else if last && c[3] == PAD then
      if e.value % 4 != 0 then None else Some([Left(a.value, b.value), Middle(b.value, e.value)])
    else if f.None? then None
    else Some([Left(a.value, b.value), Middle(b.value, e.value), Right(e.value, f.value)])
  }

  function Decode(t: Bytes): Option<Bytes>
    decreases |t|
  {
    if t == [] then Some([])
    else if |t| < 4 then None
    else
      var head, tail := DecodeGroup(t[..4], |t| == 4), Decode(t[4..]);
      if head.None? || tail.None? then None else Some(head.value + tail.value)
  }

  lemma DigitsAreValues()
    ensures forall d: nat | d < 64 :: Digit(d) != PAD && Value(Digit(d)) == Some(d)
    ensures forall c: Byte | Value(c).Some? :: Digit(Value(c).value) == c
  {
  }

  lemma GroupRoundTrip(s: Bytes, last: bool)
    requires |s| == 3 || (last && 1 <= |s| <= 3)
    ensures |Encode(s)| == 4 && DecodeGroup(Encode(s), last) == Some(s)
  {
    hide Digit, Value, First, Second, Third, Fourth, Left, Middle, Right;
    DigitsAreValues();
    if |s| == 3 {
      Regroup(s[0], s[1], s[2]);
      assert Encode(s[3..]) == [];
      assert Encode(s) == EncodeThree(s[0], s[1], s[2]);
      assert s == [s[0], s[1], s[2]];
    } else if |s| == 2 {
      Regroup(s[0], s[1], 0);
      assert s == [s[0], s[1]];
    } else {
      Regroup(s[0], 0, 0);
      assert s == [s[0]];
    }
  }

  lemma GroupCanonical(c: Bytes, last: bool)
    requires |c| == 4 && DecodeGroup(c, last).Some?
    ensures var s := DecodeGroup(c, last).value; 1 <= |s| <= 3 && (|s| < 3 ==> last) && Encode(s) == c
  {
    hide Digit, Value, First, Second, Third, Fourth, Left, Middle, Right;
    DigitsAreValues();
    var a, b, e, f := Value(c[0]), Value(c[1]), Value(c[2]), Value(c[3]);
    Ungroup(a.value, b.value, e.GetOr(0), f.GetOr(0));
    var s := DecodeGroup(c, last).value;
    if |s| == 3 {
      assert Encode(s[3..]) == [];
    }
  }

  lemma EncodeGroups(s: Bytes)
    requires |s| > 3
    ensures Encode(s) == Encode(s[..3]) + Encode(s[3..]) && |Encode(s[..3])| == 4 && Encode(s[3..]) != []
  {
    assert s[..3][3..] == [];
  }

  lemma {:induction false} RoundTrip(s: Bytes)
    ensures Decode(Encode(s)) == Some(s)
    decreases |s|
  {
    hide Encode, DecodeGroup;
    var t := Encode(s);
    if |s| > 3 {
      RoundTrip(s[3..]);
      GroupRoundTrip(s[..3], false);
      EncodeGroups(s);
      assert t[..4] == Encode(s[..3]) && t[4..] == Encode(s[3..]);
      assert s == s[..3] + s[3..];
    } else if s != [] {
      GroupRoundTrip(s, true);
      assert t[..4] == t && t[4..] == [];
      assert Decode(t[4..]) == Some([]) && s + [] == s;
    } else {
      assert Encode([]) == [] by { EncodeNothing(); }
    }
  }

  lemma EncodeNothing()
    ensures Encode([]) == []
  {
  }

  /** Only the encoding of `s` decodes to `s`. */
  lemma {:induction false} Canonical(t: Bytes)
    requires Decode(t).Some?
    ensures Encode(Decode(t).value) == t
    decreases |t|
  {
    hide Encode, DecodeGroup;
    EncodeNothing();
    if t != [] {
      var head, tail := DecodeGroup(t[..4], |t| == 4).value, Decode(t[4..]).value;
      Canonical(t[4..]);
      GroupCanonical(t[..4], |t| == 4);
      assert t == t[..4] + t[4..];
      if tail != [] {
        assert t[4..] != [] && |head| == 3;
        EncodeGroups(head + tail);
        assert (head + tail)[..3] == head && (head + tail)[3..] == tail;
      } else {
        assert head + tail == head;
      }
    }
  }

  // --- The encoding is that of the standard ---

  /** Table 1: A-Z, a-z, 0-9, plus and slash. */
  lemma AlphabetIs(d: nat)
    requires d < 64
    ensures d < 26 ==> Digit(d) == ('A' as int) + d
    ensures 26 <= d < 52 ==> Digit(d) == ('a' as int) + d - 26
    ensures 52 <= d < 62 ==> Digit(d) == ('0' as int) + d - 52
    ensures d == 62 ==> Digit(d) == '+' as int
    ensures d == 63 ==> Digit(d) == '/' as int
  {
  }

  /** The number of 24 bits that three bytes make. */
  function Number(x: nat, y: nat, z: nat): nat {
    x * 65536 + y * 256 + z
  }

  /** Its four digits are those that are written. */
  lemma DigitsAre(x: Byte, y: Byte, z: Byte)
    ensures First(x) < 64 && Second(x, y) < 64 && Third(y, z) < 64 && Fourth(z) < 64
    ensures First(x) * 262144 + Second(x, y) * 4096 + Third(y, z) * 64 + Fourth(z) == Number(x, y, z)
  {
  }

  /** Three bytes are read as a number of 24 bits and written as its four digits, the highest first. A last group of two
      or one is filled with zero bits, and a pad "=" stands for each missing byte. */
  lemma EncodeIs(s: Bytes) returns (a: nat, b: nat, e: nat, f: nat)
    ensures a < 64 && b < 64 && e < 64 && f < 64
    ensures s == [] ==> Encode(s) == []
    ensures s != [] ==>
      a * 262144 + b * 4096 + e * 64 + f == Number(s[0], if |s| > 1 then s[1] else 0, if |s| > 2 then s[2] else 0)
    ensures |s| == 1 ==> Encode(s) == [Digit(a), Digit(b), '=' as int, '=' as int]
    ensures |s| == 2 ==> Encode(s) == [Digit(a), Digit(b), Digit(e), '=' as int]
    ensures |s| >= 3 ==> Encode(s) == [Digit(a), Digit(b), Digit(e), Digit(f)] + Encode(s[3..])
  {
    hide First, Second, Third, Fourth, Digit, Number;
    a, b, e, f := 0, 0, 0, 0;
    if s != [] {
      var x, y, z := s[0], if |s| > 1 then s[1] else 0, if |s| > 2 then s[2] else 0;
      DigitsAre(x, y, z);
      a, b, e, f := First(x), Second(x, y), Third(y, z), Fourth(z);
    }
  }
}
