/** The 11-entry list `HVAC_CMD.__data` and what one `__build_cmd` does to it
    (or-ing the settings into entries 5, 7 and 9 and storing Python's `~` of
    each in entries 6, 8 and 10), with the bytes a reader of bits 0..7 sees. */
module Payload {
  import opened Bits
  import opened Codes

  /** The class attribute as the class body creates it. */
  const INITIAL_DATA: seq<int> := [0x52, 0xAE, 0xC3, 0x26, 0xD9, 0x11, 0x00, 0x07, 0x00, 0x00, 0x00]

  /** The protocol's fixed first five bytes. */
  const PREFIX: seq<int> := [0x52, 0xAE, 0xC3, 0x26, 0xD9]

  /** What `__build_cmd` or-s into entry 5: HSwing | (VSwing & 0b10) | Clean. */
  function Bits5(s: Settings): int {
    Or(Or(s.hSwing, And(s.vSwing, 0x02)), s.clean)
  }

  /** What it or-s into entry 7: Fan | (VSwing & 0b11000). */
  function Bits7(s: Settings): int {
    Or(s.fan, And(s.vSwing, 0x18))
  }

  /** What it or-s into entry 9: Mode | Power | Temp. */
  function Bits9(s: Settings): int {
    Or(Or(s.mode, s.power), s.temp)
  }

  /** The list after one `__build_cmd` with settings s, from the list d before. */
  function Built(d: seq<int>, s: Settings): (r: seq<int>)
    requires |d| == 11
    ensures |r| == 11
  {
    var b5 := Or(d[5], Bits5(s));
    var b7 := Or(d[7], Bits7(s));
    var b9 := Or(d[9], Bits9(s));
    d[5 := b5][6 := Not(b5)][7 := b7][8 := Not(b7)][9 := b9][10 := Not(b9)]
  }

  /** The payload bytes a reader of bits 0..7 of each entry sees. */
  function Bytes(d: seq<int>): (r: seq<Byte>)
    ensures |r| == |d|
    ensures forall k :: 0 <= k < |d| ==> r[k] == Low8(d[k])
  {
    if d == [] then [] else [Low8(d[0])] + Bytes(d[1..])
  }

  /** The bytes of a list with one more entry end in that entry's byte. */
  lemma {:induction false} BytesSnoc(d: seq<int>)
    requires d != []
    ensures Bytes(d) == Bytes(d[..|d| - 1]) + [Low8(d[|d| - 1])]
    decreases |d|
  {
    if |d| > 1 {
      var init := d[..|d| - 1];
      BytesSnoc(d[1..]);
      assert d[1..][..|d| - 2] == init[1..];
      assert Bytes(init) == [Low8(d[0])] + Bytes(init[1..]);
    } else {
      assert d[..0] == [];
    }
  }

  /** A value that fits a byte is its own low byte. */
  lemma Low8Small(x: int)
    requires 0 <= x < 256
    ensures Low8(x) == x
  {
    DivModUnique(x, 256, 0, x);
  }

  // ---------------------------------------------------------------------

  /** A build writes entries 5..10 only: entries 0..4 stay as they were. */
  lemma BuiltKeepsPrefix(d: seq<int>, s: Settings)
    requires |d| == 11
    ensures Built(d, s)[..5] == d[..5]
  {
  }

  /** The emitted bytes 6, 8 and 10 are the complements 255 - b of bytes 5, 7
      and 9. */
  lemma BuiltChecksums(d: seq<int>, s: Settings)
    requires |d| == 11
    ensures var p := Bytes(Built(d, s));
      p[6] == 255 - p[5] && p[8] == 255 - p[7] && p[10] == 255 - p[9]
  {
    var r := Built(d, s);
    Low8Not(r[5]);
    Low8Not(r[7]);
    Low8Not(r[9]);
  }

  /** Entries 5, 7 and 9 only gain bits: `|=` on the shared list never clears
      one, and after the build they also hold every bit of the settings. */
  lemma BuiltGainsBits(d: seq<int>, s: Settings, j: nat)
    requires |d| == 11
    ensures var r := Built(d, s);
      && (Bit(r[5], j) <==> Bit(d[5], j) || Bit(Bits5(s), j))
      && (Bit(r[7], j) <==> Bit(d[7], j) || Bit(Bits7(s), j))
      && (Bit(r[9], j) <==> Bit(d[9], j) || Bit(Bits9(s), j))
  {
    OrBit(d[5], Bits5(s), j);
    OrBit(d[7], Bits7(s), j);
    OrBit(d[9], Bits9(s), j);
  }

  /** Building again with the same settings leaves the list as it is, so the
      emitted frame repeats byte for byte. */
  lemma BuiltIdempotent(d: seq<int>, s: Settings)
    requires |d| == 11
    ensures Built(Built(d, s), s) == Built(d, s)
  {
    OrAbsorb(d[5], Bits5(s));
    OrAbsorb(d[7], Bits7(s));
    OrAbsorb(d[9], Bits9(s));
  }

  /** Bit 3 of entry 9 is where `Power.Off` (0x08) lands. A build with
      power off sets it, and since the list is shared and only or-ed into,
      no later build clears it, whatever its power setting. */
  lemma OffBitSticks(d: seq<int>, s: Settings)
    requires |d| == 11
    requires Bit(d[9], 3) || s.power == POWER_OFF
    ensures Bit(Built(d, s)[9], 3) && Bit(Bytes(Built(d, s))[9], 3)
  {
    var r := Built(d, s);
    OrBit(d[9], Bits9(s), 3);
    OrBit(Or(s.mode, s.power), s.temp, 3);
    OrBit(s.mode, s.power, 3);
    if s.power == POWER_OFF {
      assert Bit(POWER_OFF, 3);
    }
    Low8Bit(r[9], 3);
  }

  /** On the list as the class creates it, bit 3 of payload byte 9 is set
      exactly when the settings say power off, for table mode and power codes
      and a temperature code in the high nibble. */
  lemma FreshPowerBit(s: Settings)
    requires IsModeCode(s.mode) && (s.power == POWER_OFF || s.power == POWER_ON)
    requires s.temp % 16 == 0
    ensures Bit(Bytes(Built(INITIAL_DATA, s))[9], 3) <==> s.power == POWER_OFF
  {
    var r := Built(INITIAL_DATA, s);
    assert INITIAL_DATA[9] == 0;
    OrBit(0, Bits9(s), 3);
    SignBits(0, 3);
    OrBit(Or(s.mode, s.power), s.temp, 3);
    OrBit(s.mode, s.power, 3);
    ModeBit3(s.mode);
    HighNibbleBit3(s.temp);
    assert Bit(POWER_OFF, 3) && !Bit(POWER_ON, 3);
    Low8Bit(r[9], 3);
  }

  /** No mode code has bit 3 set. */
  lemma ModeBit3(m: int)
    requires IsModeCode(m)
    ensures !Bit(m, 3)
  {
  }

  /** A multiple of 16 has bit 3 clear. */
  lemma HighNibbleBit3(x: int)
    requires x % 16 == 0
    ensures !Bit(x, 3)
  {
    var k := x / 16;
    assert x == 16 * k;
    assert x / 2 == 8 * k && (x / 2) / 2 == 4 * k && ((x / 2) / 2) / 2 == 2 * k;
  }

  /** When the list starts with the fixed prefix and the or-ed entries fit a
      byte, the payload is the prefix followed by each of those entries and
      its complement. */
  lemma BuiltPayload(d: seq<int>, s: Settings)
    requires |d| == 11 && d[..5] == PREFIX
    requires 0 <= Or(d[5], Bits5(s)) < 256
    requires 0 <= Or(d[7], Bits7(s)) < 256
    requires 0 <= Or(d[9], Bits9(s)) < 256
    ensures var b5, b7, b9 := Or(d[5], Bits5(s)), Or(d[7], Bits7(s)), Or(d[9], Bits9(s));
      Bytes(Built(d, s)) == PREFIX + [b5, 255 - b5, b7, 255 - b7, b9, 255 - b9]
  {
    var r := Built(d, s);
    var p := Bytes(r);
    PrefixBytes();
    forall k | 0 <= k < 5
      ensures p[k] == PREFIX[k]
    {
      assert r[k] == d[k];
      assert p[k] == Low8(PREFIX[k]);
    }
    Low8Small(r[5]);
    Low8Small(r[7]);
    Low8Small(r[9]);
    Low8Not(r[5]);
    Low8Not(r[7]);
    Low8Not(r[9]);
  }

  /** The prefix entries are bytes already. */
  lemma PrefixBytes()
    ensures forall k :: 0 <= k < 5 ==> Low8(PREFIX[k]) == PREFIX[k]
  {
    forall k | 0 <= k < 5
      ensures Low8(PREFIX[k]) == PREFIX[k]
    {
      Low8Small(PREFIX[k]);
    }
  }

  /** On the list as the class creates it, power off with every other setting
      at its default and the temperature code of 24 gives the payload
      52 AE C3 26 D9 FF 00 FF 00 8F 70. */
  lemma FreshOffPayload()
    ensures Bytes(Built(INITIAL_DATA, DEFAULT_SETTINGS.(temp := 0x80)))
         == PREFIX + [0xFF, 0x00, 0xFF, 0x00, 0x8F, 0x70]
  {
    var d, s := INITIAL_DATA, DEFAULT_SETTINGS.(temp := 0x80);
    assert d[..5] == PREFIX;
    assert d[5] == 0x11 && d[7] == 0x07 && d[9] == 0x00;
    DefaultBits5();
    DefaultBits7();
    DefaultBits9();
    OrSeed5();
    OrSeed7();
    OrSeed9();
    BuiltPayload(d, s);
  }

  lemma DefaultBits5()
    ensures Bits5(DEFAULT_SETTINGS.(temp := 0x80)) == 0xEE
  {
    AndVSwing5();
    OrHSwing5();
    OrClean5();
  }

  lemma DefaultBits7()
    ensures Bits7(DEFAULT_SETTINGS.(temp := 0x80)) == 0xF8
  {
    AndVSwing7();
    OrFan7();
  }

  lemma DefaultBits9()
    ensures Bits9(DEFAULT_SETTINGS.(temp := 0x80)) == 0x8F
  {
    OrPower9();
    OrTemp9();
  }

  /** `0x1A & 0b10`: the bit of VSwing.Stop that goes into entry 5. */
  lemma AndVSwing5()
    ensures And(0x1A, 0x02) == 0x02
  {
    AndStep(0x01, 0x00, 0x00);
    AndStep(0x03, 0x00, 0x00);
    AndStep(0x06, 0x00, 0x00);
    AndStep(0x0D, 0x01, 0x00);
    AndStep(0x1A, 0x02, 0x01);
  }

  /** `0xCC | 0x02`. */
  lemma OrHSwing5()
    ensures Or(0xCC, 0x02) == 0xCE
  {
    OrStep(0x01, 0x00, 0x00);
    OrStep(0x03, 0x00, 0x01);
    OrStep(0x06, 0x00, 0x03);
    OrStep(0x0C, 0x00, 0x06);
    OrStep(0x19, 0x00, 0x0C);
    OrStep(0x33, 0x00, 0x19);
    OrStep(0x66, 0x01, 0x33);
    OrStep(0xCC, 0x02, 0x67);
  }

  /** `0xCE | 0x20`. */
  lemma OrClean5()
    ensures Or(0xCE, 0x20) == 0xEE
  {
    OrStep(0x01, 0x00, 0x00);
    OrStep(0x03, 0x00, 0x01);
    OrStep(0x06, 0x01, 0x03);
    OrStep(0x0C, 0x02, 0x07);
    OrStep(0x19, 0x04, 0x0E);
    OrStep(0x33, 0x08, 0x1D);
    OrStep(0x67, 0x10, 0x3B);
    OrStep(0xCE, 0x20, 0x77);
  }

  /** `0x1A & 0b11000`: the bits of VSwing.Stop that go into entry 7. */
  lemma AndVSwing7()
    ensures And(0x1A, 0x18) == 0x18
  {
    AndStep(0x01, 0x01, 0x00);
    AndStep(0x03, 0x03, 0x01);
    AndStep(0x06, 0x06, 0x03);
    AndStep(0x0D, 0x0C, 0x06);
    AndStep(0x1A, 0x18, 0x0C);
  }

  /** `0xE0 | 0x18`. */
  lemma OrFan7()
    ensures Or(0xE0, 0x18) == 0xF8
  {
    OrStep(0x01, 0x00, 0x00);
    OrStep(0x03, 0x00, 0x01);
    OrStep(0x07, 0x00, 0x03);
    OrStep(0x0E, 0x01, 0x07);
    OrStep(0x1C, 0x03, 0x0F);
    OrStep(0x38, 0x06, 0x1F);
    OrStep(0x70, 0x0C, 0x3E);
    OrStep(0xE0, 0x18, 0x7C);
  }

  /** `0x07 | 0x08`. */
  lemma OrPower9()
    ensures Or(0x07, 0x08) == 0x0F
  {
    OrStep(0x00, 0x01, 0x00);
    OrStep(0x01, 0x02, 0x01);
    OrStep(0x03, 0x04, 0x03);
    OrStep(0x07, 0x08, 0x07);
  }

  /** `0x0F | 0x80`. */
  lemma OrTemp9()
    ensures Or(0x0F, 0x80) == 0x8F
  {
    OrStep(0x00, 0x01, 0x00);
    OrStep(0x00, 0x02, 0x01);
    OrStep(0x00, 0x04, 0x02);
    OrStep(0x00, 0x08, 0x04);
    OrStep(0x01, 0x10, 0x08);
    OrStep(0x03, 0x20, 0x11);
    OrStep(0x07, 0x40, 0x23);
    OrStep(0x0F, 0x80, 0x47);
  }

  /** `0x11 | 0xEE`: entry 5 of the initial list or-ed with the default bits. */
  lemma OrSeed5()
    ensures Or(0x11, 0xEE) == 0xFF
  {
    OrStep(0x00, 0x01, 0x00);
    OrStep(0x00, 0x03, 0x01);
    OrStep(0x00, 0x07, 0x03);
    OrStep(0x01, 0x0E, 0x07);
    OrStep(0x02, 0x1D, 0x0F);
    OrStep(0x04, 0x3B, 0x1F);
    OrStep(0x08, 0x77, 0x3F);
    OrStep(0x11, 0xEE, 0x7F);
  }

  /** `0x07 | 0xF8`: the same for entry 7. */
  lemma OrSeed7()
    ensures Or(0x07, 0xF8) == 0xFF
  {
    OrStep(0x00, 0x01, 0x00);
    OrStep(0x00, 0x03, 0x01);
    OrStep(0x00, 0x07, 0x03);
    OrStep(0x00, 0x0F, 0x07);
    OrStep(0x00, 0x1F, 0x0F);
    OrStep(0x01, 0x3E, 0x1F);
    OrStep(0x03, 0x7C, 0x3F);
    OrStep(0x07, 0xF8, 0x7F);
  }

  /** `0x00 | 0x8F`: the same for entry 9. */
  lemma OrSeed9()
    ensures Or(0x00, 0x8F) == 0x8F
  {
    OrStep(0x00, 0x01, 0x00);
    OrStep(0x00, 0x02, 0x01);
    OrStep(0x00, 0x04, 0x02);
    OrStep(0x00, 0x08, 0x04);
    OrStep(0x00, 0x11, 0x08);
    OrStep(0x00, 0x23, 0x11);
    OrStep(0x00, 0x47, 0x23);
    OrStep(0x00, 0x8F, 0x47);
  }
}
