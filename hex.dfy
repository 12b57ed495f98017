/** The hex-string layer of the encoder: Python's `"%0.Nx" % v` formatting,
    `binascii.unhexlify`, and the blank removal done before decoding. */
module Hex {
  import opened Bits
  import opened Wrappers

  /** 16 to the n. */
  function Pow16(n: nat): (p: int)
    ensures p >= 1
  {
    if n == 0 then 1 else 16 * Pow16(n - 1)
  }

  /** The lower-case digit that `%x` prints for a nibble. */
  function HexDigit(n: int): char
    requires 0 <= n < 16
  {
    if n < 10 then ('0' as int + n) as char else ('a' as int + n - 10) as char
  }

  /** The value `unhexlify` reads from one character (either case). */
  function DigitValue(c: char): (r: Option<int>)
    ensures r.Some? ==> 0 <= r.value < 16
  {
    if '0' <= c <= '9' then Some(c as int - '0' as int)
    else if 'a' <= c <= 'f' then Some(c as int - 'a' as int + 10)
    else if 'A' <= c <= 'F' then Some(c as int - 'A' as int + 10)
    else None
  }

  /** Every character of s is a hex digit. */
  predicate IsHex(s: string) {
    forall i :: 0 <= i < |s| ==> DigitValue(s[i]).Some?
  }

  /** The number a string of hex digits denotes, most significant digit first
      (Python `int(s, 16)` on a non-empty digit string). */
  function HexValue(s: string): Option<int>
  {
    if s == [] then Some(0)
    else match HexValue(s[..|s| - 1])
      case None => None
      case Some(high) =>
        match DigitValue(s[|s| - 1])
        case None => None
        case Some(low) => Some(16 * high + low)
  }

  /** Python `"%0.<width>x" % v` for v >= 0: the hex digits of v, padded on the
      left with zeros to at least `width` digits (one digit for 0). */
  function Format(v: nat, width: nat): (s: string)
    ensures |s| >= 1 && |s| >= width
    ensures 1 <= width && v < Pow16(width) ==> |s| == width
    decreases v + width
  {
    if v < 16 && width <= 1 then [HexDigit(v)]
    else Format(v / 16, if width > 0 then width - 1 else 0) + [HexDigit(v % 16)]
  }

  /** A value that already needs more than w digits prints the same with
      one more digit of padding. */
  lemma {:induction false} FormatPadding(v: nat, w: nat)
    requires v >= Pow16(w)
    ensures Format(v, w) == Format(v, w + 1)
    decreases w
  {
    if w > 0 {
      assert v / 16 >= Pow16(w - 1);
      FormatPadding(v / 16, w - 1);
    }
  }

  /** `binascii.unhexlify`: two hex digits per byte; None stands for the
      `binascii.Error` raised on an odd length or a non-hex character. */
  function Unhexlify(s: string): (r: Option<seq<Byte>>)
    ensures r.Some? <==> |s| % 2 == 0 && IsHex(s)
    ensures r.Some? ==> 2 * |r.value| == |s|
    decreases |s|
  {
    if |s| == 0 then Some([])
    else if |s| == 1 then None
    else match DigitValue(s[0])
      case None => None
      case Some(high) =>
        match DigitValue(s[1])
        case None => None
        case Some(low) =>
          match Unhexlify(s[2..])
          case None => None
          case Some(rest) => Some([16 * high + low] + rest)
  }

  /** Concatenation of two decodings, failing when either fails. */
  function Join(x: Option<seq<Byte>>, y: Option<seq<Byte>>): Option<seq<Byte>> {
    if x.Some? && y.Some? then Some(x.value + y.value) else None
  }

  /** Python `s.replace(c, '')`. */
  function Without(s: string, c: char): (r: string)
    ensures c !in r
    ensures c !in s ==> r == s
    ensures |r| <= |s|
  {
    if s == [] then []
    else (if s[0] == c then [] else [s[0]]) + Without(s[1..], c)
  }

  /** `replace(c, '')` on one character drops it exactly when it is c. */
  lemma WithoutChar(x: char, c: char)
    ensures Without([x], c) == if x == c then [] else [x]
  {
    assert [x][1..] == [];
  }

  /** `replace(c, '')` works character by character: on a concatenation it is
      the concatenation of the two results, so every character other than c
      is kept, in order. */
  lemma {:induction false} WithoutAppend(a: string, b: string, c: char)
    ensures Without(a + b, c) == Without(a, c) + Without(b, c)
    decreases |a|
  {
    if a == [] {
      assert a + b == b;
    } else {
      assert (a + b)[0] == a[0];
      assert (a + b)[1..] == a[1..] + b;
      WithoutAppend(a[1..], b, c);
    }
  }

  // ---------------------------------------------------------------------

  /** The formatted text is all hex digits. */
  lemma {:induction false} FormatIsHex(v: nat, width: nat)
    ensures IsHex(Format(v, width))
    decreases v + width
  {
    if !(v < 16 && width <= 1) {
      var w := if width > 0 then width - 1 else 0;
      FormatIsHex(v / 16, w);
      var front := Format(v / 16, w);
      DigitRoundTrip(v % 16);
      forall i | 0 <= i < |Format(v, width)|
        ensures DigitValue(Format(v, width)[i]).Some?
      {
        if i < |front| {
          assert Format(v, width)[i] == front[i];
        }
      }
    } else {
      DigitRoundTrip(v);
    }
  }

  /** The formatted text denotes v again (Python `int(s, 16)`). */
  lemma {:induction false} FormatRoundTrip(v: nat, width: nat)
    ensures HexValue(Format(v, width)) == Some(v)
    decreases v + width
  {
    var s := Format(v, width);
    if v < 16 && width <= 1 {
      DigitRoundTrip(v);
      assert s[..0] == [];
    } else {
      var w := if width > 0 then width - 1 else 0;
      FormatRoundTrip(v / 16, w);
      DigitRoundTrip(v % 16);
      assert s[..|s| - 1] == Format(v / 16, w);
      assert s[|s| - 1] == HexDigit(v % 16);
      assert 16 * (v / 16) + v % 16 == v;
      assert HexValue(s) == Some(16 * (v / 16) + v % 16);
    }
  }

  /** The byte two digits stand for, if both are hex digits. */
  function DigitPair(c0: char, c1: char): Option<seq<Byte>> {
    match DigitValue(c0)
    case None => None
    case Some(high) =>
      match DigitValue(c1)
      case None => None
      case Some(low) => Some([16 * high + low])
  }

  /** The first step of `Unhexlify` on text of two or more characters. */
  lemma UnhexlifyFront(s: string)
    requires |s| >= 2
    ensures Unhexlify(s) == Join(DigitPair(s[0], s[1]), Unhexlify(s[2..]))
  {
  }

  lemma JoinAssoc(x: Option<seq<Byte>>, y: Option<seq<Byte>>, z: Option<seq<Byte>>)
    ensures Join(x, Join(y, z)) == Join(Join(x, y), z)
  {
    if x.Some? && y.Some? && z.Some? {
      assert x.value + (y.value + z.value) == (x.value + y.value) + z.value;
    }
  }

  /** Decoding splits at any even position. */
  lemma {:induction false} UnhexlifyAppend(a: string, b: string)
    requires |a| % 2 == 0
    ensures Unhexlify(a + b) == Join(Unhexlify(a), Unhexlify(b))
    decreases |a|
  {
    if |a| > 0 {
      var ab := a + b;
      assert ab[2..] == a[2..] + b;
      assert ab[0] == a[0] && ab[1] == a[1];
      UnhexlifyFront(ab);
      UnhexlifyFront(a);
      UnhexlifyAppend(a[2..], b);
      JoinAssoc(DigitPair(a[0], a[1]), Unhexlify(a[2..]), Unhexlify(b));
    } else {
      assert a + b == b;
      if Unhexlify(b).Some? {
        assert [] + Unhexlify(b).value == Unhexlify(b).value;
      }
    }
  }

  /** "%0.2x" of a byte decodes back to that one byte. */
  lemma UnhexlifyByte(v: Byte)
    ensures Unhexlify(Format(v, 2)) == Some([v])
  {
    FormatByte(v);
    DigitRoundTrip(v / 16);
    DigitRoundTrip(v % 16);
    UnhexlifyTwo(HexDigit(v / 16), HexDigit(v % 16), v / 16, v % 16);
  }

  /** Two hex digits decode to the one byte they denote. */
  lemma UnhexlifyTwo(a: char, b: char, high: int, low: int)
    requires DigitValue(a) == Some(high) && DigitValue(b) == Some(low)
    ensures Unhexlify([a, b]) == Some([16 * high + low])
  {
    var s := [a, b];
    assert s[0] == a && s[1] == b && s[2..] == [];
    assert Unhexlify(s[2..]) == Some([]);
    assert [16 * high + low] + [] == [16 * high + low];
  }

  /** The two digits "%0.2x" prints for a byte. */
  lemma FormatByte(v: Byte)
    ensures Format(v, 2) == [HexDigit(v / 16), HexDigit(v % 16)]
  {
    assert Format(v / 16, 1) == [HexDigit(v / 16)];
  }

  lemma DigitRoundTrip(n: int)
    requires 0 <= n < 16
    ensures DigitValue(HexDigit(n)) == Some(n)
  {
  }

  /** The four digits of a 16-bit value are its high byte's two digits
      followed by its low byte's two digits. */
  lemma FormatSplit(v: nat)
    requires v < 65536
    ensures Format(v, 4) == Format(v / 256, 2) + Format(v % 256, 2)
  {
    assert Pow16(2) == 256;
    var q := v / 16;
    assert Format(v, 4) == Format(q, 3) + [HexDigit(v % 16)];
    assert Format(q, 3) == Format(q / 16, 2) + [HexDigit(q % 16)];
    assert q / 16 == v / 256;
    var low := v % 256;
    assert low / 16 == q % 16 && low % 16 == v % 16;
    assert Format(low, 2) == Format(low / 16, 1) + [HexDigit(low % 16)];
    assert Format(low / 16, 1) == [HexDigit(q % 16)];
  }

  /** A hex string has nothing for the blank removal to remove. */
  lemma HexHasNoBlanks(s: string)
    requires IsHex(s)
    ensures ' ' !in s && '\n' !in s
  {
  }
}
