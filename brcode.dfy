/** `__val2BrCode` and `__val2BrLen`: numbers written as the hex text of
    Broadlink duration and length fields, and what that text decodes to. */
module BrCode {
  import opened Bits
  import opened Wrappers
  import opened Hex
  import opened Timing

  /** `__val2BrCode(num / den, noZero)`: round up; a value below 256 is one
      byte, anything larger is written low byte first after a 00 marker
      (left out when noZero). */
  function Val2BrCode(num: nat, den: nat, noZero: bool): string
    requires den > 0
  {
    var v := Ceil(num, den);
    if v < 256 then Format(v, 2)
    else
      var datalen := Format(v, 4);
      if noZero then datalen[2..4] + datalen[0..2]
      else "00" + datalen[2..4] + datalen[0..2]
  }

  /** `__val2BrLen(num / den)`: round up and write as a little-endian pair of
      bytes. */
  function Val2BrLen(num: nat, den: nat): string
    requires den > 0
  {
    var datalen := Format(Ceil(num, den), 4);
    datalen[2..4] + datalen[0..2]
  }

  /** The bytes a duration stands for in a Broadlink IR stream. */
  function DurationBytes(v: nat, noZero: bool): seq<Byte>
  {
    if v < 256 then [v]
    else (if noZero then [] else [0]) + [v % 256, (v / 256) % 256]
  }

  /** Little-endian 16-bit field. */
  function Le16(v: nat): seq<Byte> {
    [v % 256, (v / 256) % 256]
  }

  /** A little-endian 16-bit field reads back as its value. */
  lemma Le16Value(v: nat)
    requires v < 65536
    ensures Le16(v)[0] as int + 256 * (Le16(v)[1] as int) == v
  {
    DivModUnique(v / 256, 256, 0, v / 256);
  }

  /** The reader that inverts `__val2BrCode`'s layout: one byte, or a 00
      marker followed by the low byte and then the high byte. */
  function ReadDuration(b: seq<Byte>): Option<nat> {
    if |b| == 1 && b[0] != 0 then Some(b[0])
    else if |b| == 3 && b[0] == 0 then Some(b[1] as int + 256 * (b[2] as int))
    else None
  }

  // ---------------------------------------------------------------------

  lemma FormatWord(v: nat)
    requires v < 65536
    ensures |Format(v, 4)| == 4
    ensures Format(v, 4)[2..4] + Format(v, 4)[0..2] == Format(v % 256, 2) + Format(v / 256, 2)
  {
    assert Pow16(4) == 65536 && Pow16(2) == 256;
    FormatSplit(v);
    var high, low := Format(v / 256, 2), Format(v % 256, 2);
    assert Format(v, 4)[0..2] == high && Format(v, 4)[2..4] == low;
  }

  /** Up to 0xFFFF the text of `__val2BrCode` decodes to the duration's bytes. */
  lemma Val2BrCodeDecodes(num: nat, den: nat, noZero: bool)
    requires den > 0 && Ceil(num, den) < 65536
    ensures Unhexlify(Val2BrCode(num, den, noZero)) == Some(DurationBytes(Ceil(num, den), noZero))
  {
    var v := Ceil(num, den);
    if v < 256 {
      UnhexlifyByte(v);
    } else {
      var word := Format(v, 4)[2..4] + Format(v, 4)[0..2];
      WordDecodes(v);
      if !noZero {
        assert Unhexlify("00") == Some([0]) by { UnhexlifyByte(0); assert Format(0, 2) == "00"; }
        UnhexlifyAppend("00", word);
        assert "00" + Format(v, 4)[2..4] + Format(v, 4)[0..2] == "00" + word;
        assert DurationBytes(v, false) == [0] + Le16(v);
      } else {
        assert DurationBytes(v, true) == Le16(v);
      }
    }
  }

  /** Up to 0xFFFF the text of `__val2BrLen` decodes to the little-endian pair. */
  lemma Val2BrLenDecodes(num: nat, den: nat)
    requires den > 0 && Ceil(num, den) < 65536
    ensures Unhexlify(Val2BrLen(num, den)) == Some(Le16(Ceil(num, den)))
  {
    WordDecodes(Ceil(num, den));
  }

  lemma WordDecodes(v: nat)
    requires v < 65536
    ensures Unhexlify(Format(v, 4)[2..4] + Format(v, 4)[0..2]) == Some(Le16(v))
  {
    var low, high := Format(v % 256, 2), Format(v / 256, 2);
    FormatWord(v);
    UnhexlifyByte(v % 256);
    UnhexlifyByte(v / 256);
    UnhexlifyAppend(low, high);
    assert (v / 256) % 256 == v / 256;
    assert [v % 256] + [v / 256] == Le16(v);
  }

  /** A duration's bytes read back as the duration; one byte exactly when it
      is below 256. */
  lemma DurationRoundTrip(v: nat)
    requires 0 < v < 65536
    ensures ReadDuration(DurationBytes(v, false)) == Some(v)
    ensures |DurationBytes(v, false)| == 1 <==> v < 256
  {
  }

  /** From 0x10000 to 0xFFFFF `"%0.4x"` prints five digits and the slicing
      keeps the first four: the text is that of v / 16, the value without
      its last hex digit, and the inverse reader gets that smaller
      duration. */
  lemma Val2BrCodeTooLarge(num: nat, den: nat, noZero: bool)
    requires den > 0 && 0x10000 <= Ceil(num, den) < 0x100000
    ensures Val2BrCode(num, den, noZero) == Val2BrCode(Ceil(num, den) / 16, 1, noZero)
    ensures Unhexlify(Val2BrCode(num, den, noZero)) == Some(DurationBytes(Ceil(num, den) / 16, noZero))
    ensures ReadDuration(DurationBytes(Ceil(num, den) / 16, false)) == Some(Ceil(num, den) / 16)
  {
    var v := Ceil(num, den);
    var w := v / 16;
    assert Pow16(3) == 4096 && Pow16(4) == 65536;
    FormatPadding(w, 3);
    assert Format(v, 4) == Format(w, 4) + [HexDigit(v % 16)];
    assert Format(v, 4)[2..4] == Format(w, 4)[2..4] && Format(v, 4)[0..2] == Format(w, 4)[0..2];
    assert Ceil(w, 1) == w;
    Val2BrCodeDecodes(w, 1, noZero);
    DurationRoundTrip(w);
  }

  /** For example 0x12345 is written as 00 34 12, which reads back as 0x1234. */
  lemma Val2BrCodeTooLargeExample()
    ensures Val2BrCode(0x12345, 1, false) == "003412"
    ensures Unhexlify(Val2BrCode(0x12345, 1, false)) == Some(DurationBytes(0x1234, false))
    ensures ReadDuration(DurationBytes(0x1234, false)) == Some(0x1234)
  {
    assert Ceil(0x12345, 1) == 0x12345;
    var text := FiveDigits();
    assert text[2..4] == "34" && text[0..2] == "12";
    Val2BrCodeTooLarge(0x12345, 1, false);
  }

  lemma FiveDigits() returns (text: string)
    ensures text == Format(0x12345, 4) == "12345"
  {
    text := Format(0x12345, 4);
    assert text == Format(0x1234, 3) + "5";
    assert Format(0x1234, 3) == Format(0x123, 2) + "4";
    assert Format(0x123, 2) == Format(0x12, 1) + "3";
    assert Format(0x12, 1) == Format(1, 0) + "2";
  }
}
