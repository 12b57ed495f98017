/** The Broadlink IR frame `__build_cmd` writes as hex text, and the bytes
    `get_cmd` decodes it to.

    Each entry of the 11-entry list becomes eight mark/space pairs, lowest
    bit first; a set bit is the pair (13, 39) and a clear bit (13, 13), in
    Broadlink units. The frame is 26 00, a little-endian length, the header
    pulses 6A 35, the data pulses, and the trailer 0D 05. */
module Frame {
  import opened Bits
  import opened Wrappers
  import opened Hex
  import opened Timing
  import opened BrCode
  import opened Payload

  // ---------------------------------------------------------------------
  // The frame as bytes

  /** Broadlink's code for an IR command (`__IR_BroadLink_Code`). */
  const IR_CODE: Byte := 0x26

  /** The data pulses in truncated units and the two header pulses in
      rounded-up units. */
  const MARK_PULSE: Byte := MARK_UNITS
  const ONE_PULSE: Byte := ONE_UNITS
  const ZERO_PULSE: Byte := ZERO_UNITS
  const HEADER_PULSES: seq<Byte> := [CeilUnits(HDR_MARK), CeilUnits(HDR_SPACE)]
  const TRAILER: seq<Byte> := [0x0D, 0x05]

  /** The mark/space pair for one bit. */
  function Pair(bit: bool): seq<Byte> {
    [MARK_PULSE, if bit then ONE_PULSE else ZERO_PULSE]
  }

  /** The pulses for the low n bits of x, lowest bit first. */
  function PulseBits(x: int, n: nat): (r: seq<Byte>)
    ensures |r| == 2 * n
    decreases n
  {
    if n == 0 then [] else Pair(x % 2 == 1) + PulseBits(x / 2, n - 1)
  }

  /** The data pulses for a payload: 16 per byte, bytes in order. */
  function DataPulses(p: seq<Byte>): (r: seq<Byte>)
    ensures |r| == 16 * |p|
  {
    if p == [] then [] else PulseBits(p[0], 8) + DataPulses(p[1..])
  }

  /** The whole frame for the payload p. The length field counts the
      header, the data and four more bytes. */
  function Envelope(p: seq<Byte>): seq<Byte> {
    [IR_CODE, 0x00] + Le16(16 * |p| + 6) + (HEADER_PULSES + DataPulses(p)) + TRAILER
  }

  // ---------------------------------------------------------------------
  // Reading a frame back

  /** The value of a run of mark/space pairs, lowest bit first; None when a
      pair is neither (13, 39) nor (13, 13) or a pulse is left over. */
  function ReadBits(q: seq<Byte>): (r: Option<int>)
    ensures r.Some? ==> 0 <= r.value < Pow2(|q| / 2)
  {
    if q == [] then Some(0)
    else if |q| < 2 || q[0] != MARK_PULSE || !(q[1] in {ONE_PULSE, ZERO_PULSE}) then None
    else match ReadBits(q[2..])
      case Some(high) => Some((if q[1] == ONE_PULSE then 1 else 0) + 2 * high)
      case None => None
  }

  /** The payload that a run of data pulses stands for, 16 pulses a byte;
      None when a byte's pulses are cut short. */
  function ReadPulses(q: seq<Byte>): Option<seq<Byte>>
  {
    if q == [] then Some([])
    else if |q| < 16 then None
    else match ReadByte(q[..16])
      case None => None
      case Some(b) =>
        match ReadPulses(q[16..])
        case None => None
        case Some(rest) => Some([b] + rest)
  }

  /** The byte that eight mark/space pairs stand for. */
  function ReadByte(q: seq<Byte>): Option<Byte>
    requires |q| == 16
  {
    match ReadBits(q)
    case None => None
    case Some(v) => EightBits(); Some(v)
  }

  /** The payload of a frame: the code, a zero repeat count, a length field
      that matches, the header pulses, whole bytes of data pulses and the
      trailer; None for anything else. */
  function ReadFrame(e: seq<Byte>): Option<seq<Byte>> {
    if |e| < 8 || e[0] != IR_CODE || e[1] != 0 || e[2] as int + 256 * (e[3] as int) != |e| - 2
       || e[4..6] != HEADER_PULSES || e[|e| - 2..] != TRAILER
    then None
    else ReadPulses(e[6..|e| - 2])
  }

  // ---------------------------------------------------------------------
  // The frame as `__build_cmd` writes it

  /** `"%0.2x" % int(BIT_MARK * BDCF)` and its ONE_SPACE and ZERO_SPACE
      counterparts. */
  const MARK_TEXT: string := Format(MARK_UNITS, 2)
  const ONE_TEXT: string := Format(ONE_UNITS, 2)
  const ZERO_TEXT: string := Format(ZERO_UNITS, 2)

  /** The text one bit adds to `tmp_StrCode`. */
  function PairText(bit: bool): string {
    MARK_TEXT + (if bit then ONE_TEXT else ZERO_TEXT)
  }

  /** `tmp_StrCode` after the inner loop has tested bits 0..n-1 of x. */
  function BitsText(x: int, n: nat): string {
    if n == 0 then "" else BitsText(x, n - 1) + PairText(Bit(x, n - 1))
  }

  /** `StrHexCode` after the outer loop has run over the entries of d. */
  function DataText(d: seq<int>): string {
    if d == [] then "" else DataText(d[..|d| - 1]) + BitsText(d[|d| - 1], 8)
  }

  /** `StrHeaderTrame`: the header mark and space through `__val2BrCode`. */
  const HEADER_TEXT: string :=
    Val2BrCode(HDR_MARK * BDCF_NUM, BDCF_DEN, false) + Val2BrCode(HDR_SPACE * BDCF_NUM, BDCF_DEN, false)

  /** `__StrHexCode` after a build over the list d. The length is
      `__val2BrLen(len(StrDataCode) / 2 + 4)`, a true division in Python 3,
      written here as the fraction (len + 8) / 2. */
  function CmdText(d: seq<int>): string {
    var dataCode := HEADER_TEXT + DataText(d);
    Format(IR_CODE, 2) + Format(0x00, 2) + Val2BrLen(|dataCode| + 8, 2) + dataCode + "0d05"
  }

  // ---------------------------------------------------------------------
  // Lemmas: the pulse values

  /** The pulse values on the wire: 13 for a mark, 39 for a one-space, 13
      for a zero-space, and 6A 35 for the header. */
  lemma PulseUnits()
    ensures MARK_PULSE == 13 && ONE_PULSE == 39 && ZERO_PULSE == 13
    ensures HEADER_PULSES == [0x6A, 0x35]
  {
    UnitValues();
  }

  /** Each bit's text decodes to the bit's pair. */
  lemma PairTextDecodes(bit: bool)
    ensures Unhexlify(PairText(bit)) == Some(Pair(bit))
  {
    UnitValues();
    assert MARK_TEXT == Format(13, 2) && ZERO_TEXT == Format(13, 2) && ONE_TEXT == Format(39, 2);
    UnhexlifyByte(13);
    UnhexlifyByte(39);
    UnhexlifyAppend(MARK_TEXT, if bit then ONE_TEXT else ZERO_TEXT);
    assert Pair(bit) == [13] + [if bit then 39 else 13];
  }

  /** The header text decodes to 6A 35. */
  lemma HeaderTextDecodes()
    ensures Unhexlify(HEADER_TEXT) == Some(HEADER_PULSES)
    ensures |HEADER_TEXT| == 4
  {
    UnitValues();
    assert Ceil(HDR_MARK * BDCF_NUM, BDCF_DEN) == 0x6A;
    assert Ceil(HDR_SPACE * BDCF_NUM, BDCF_DEN) == 0x35;
    Val2BrCodeDecodes(HDR_MARK * BDCF_NUM, BDCF_DEN, false);
    Val2BrCodeDecodes(HDR_SPACE * BDCF_NUM, BDCF_DEN, false);
    var mark := Val2BrCode(HDR_MARK * BDCF_NUM, BDCF_DEN, false);
    var space := Val2BrCode(HDR_SPACE * BDCF_NUM, BDCF_DEN, false);
    assert Unhexlify(mark) == Some([0x6A]) && Unhexlify(space) == Some([0x35]);
    UnhexlifyAppend(mark, space);
    assert Unhexlify(mark + space) == Some([0x6A] + [0x35]);
    assert HEADER_TEXT == mark + space;
    assert HEADER_PULSES == [0x6A] + [0x35];
  }

  // ---------------------------------------------------------------------
  // Lemmas: data pulses

  /** The pulses of n + 1 bits are those of n bits and one more pair: the
      loop's order of appending and the reference's agree. */
  lemma {:induction false} PulseBitsSnoc(x: int, n: nat)
    ensures PulseBits(x, n + 1) == PulseBits(x, n) + Pair(Bit(x, n))
    decreases n
  {
    if n > 0 {
      PulseBitsSnoc(x / 2, n - 1);
      assert Bit(x, n) == Bit(x / 2, n - 1);
    }
  }

  /** Bit j of x decides pair j: the pulses depend on bits 0..n-1 only. */
  lemma {:induction false} PulseBitsAgree(x: int, y: int, n: nat)
    requires forall j: nat :: j < n ==> Bit(x, j) == Bit(y, j)
    ensures PulseBits(x, n) == PulseBits(y, n)
    decreases n
  {
    if n > 0 {
      assert Bit(x, 0) == Bit(y, 0);
      forall j: nat | j < n - 1
        ensures Bit(x / 2, j) == Bit(y / 2, j)
      {
        assert Bit(x, j + 1) == Bit(y, j + 1);
      }
      PulseBitsAgree(x / 2, y / 2, n - 1);
    }
  }

  /** The inner loop's text for x decodes to the pulses of x's low byte. */
  lemma {:induction false} BitsTextDecodes(x: int, n: nat)
    ensures |BitsText(x, n)| == 4 * n
    ensures Unhexlify(BitsText(x, n)) == Some(PulseBits(x, n))
    decreases n
  {
    if n > 0 {
      BitsTextDecodes(x, n - 1);
      PairTextDecodes(Bit(x, n - 1));
      UnitValues();
      UnhexlifyAppend(BitsText(x, n - 1), PairText(Bit(x, n - 1)));
      PulseBitsSnoc(x, n - 1);
    }
  }

  /** A byte-wide reader sees the same eight pairs for x and its low byte. */
  lemma PulseBitsLow8(x: int)
    ensures PulseBits(x, 8) == PulseBits(Low8(x), 8)
  {
    forall j: nat | j < 8
      ensures Bit(x, j) == Bit(Low8(x), j)
    {
      Low8Bit(x, j);
    }
    PulseBitsAgree(x, Low8(x), 8);
  }

  lemma {:induction false} DataPulsesSnoc(p: seq<Byte>, b: Byte)
    ensures DataPulses(p + [b]) == DataPulses(p) + PulseBits(b, 8)
    decreases |p|
  {
    if p != [] {
      assert (p + [b])[1..] == p[1..] + [b];
      DataPulsesSnoc(p[1..], b);
    } else {
      assert p + [b] == [b];
    }
  }

  /** The outer loop's text decodes to the data pulses of the payload, 32
      hex digits per entry. */
  lemma {:induction false} DataTextDecodes(d: seq<int>)
    ensures |DataText(d)| == 32 * |d|
    ensures Unhexlify(DataText(d)) == Some(DataPulses(Bytes(d)))
    decreases |d|
  {
    if d != [] {
      var init, last := d[..|d| - 1], d[|d| - 1];
      DataTextDecodes(init);
      BitsTextDecodes(last, 8);
      UnhexlifyAppend(DataText(init), BitsText(last, 8));
      PulseBitsLow8(last);
      BytesSnoc(d);
      DataPulsesSnoc(Bytes(init), Low8(last));
    }
  }

  // ---------------------------------------------------------------------
  // Lemmas: the whole frame

  /** The text of a build over an 11-entry list decodes to the frame of its
      payload; `get_cmd`'s blank removal changes nothing. */
  lemma CmdTextDecodes(d: seq<int>)
    requires |d| == 11
    ensures Unhexlify(CmdText(d)) == Some(Envelope(Bytes(d)))
    ensures Without(Without(CmdText(d), ' '), '\n') == CmdText(d)
  {
    var dataCode := HEADER_TEXT + DataText(d);
    DataCodeDecodes(d);
    var start := Format(IR_CODE, 2) + Format(0x00, 2) + Val2BrLen(|dataCode| + 8, 2);
    StartDecodes(|dataCode|);
    TrailerDecodes();
    ThreeParts(start, dataCode, "0d05", [IR_CODE, 0x00] + Le16(182), HEADER_PULSES + DataPulses(Bytes(d)), TRAILER);
    assert CmdText(d) == start + dataCode + "0d05";
    var p := Bytes(d);
    assert 16 * |p| + 6 == 182;
    assert Envelope(p) == [IR_CODE, 0x00] + Le16(182) + (HEADER_PULSES + DataPulses(p)) + TRAILER;
    HexHasNoBlanks(CmdText(d));
  }

  /** Three decodable texts of even length decode together to the three
      decodings in a row. */
  lemma ThreeParts(a: string, b: string, c: string, x: seq<Byte>, y: seq<Byte>, z: seq<Byte>)
    requires Unhexlify(a) == Some(x) && Unhexlify(b) == Some(y) && Unhexlify(c) == Some(z)
    ensures Unhexlify(a + b + c) == Some(x + y + z)
  {
    UnhexlifyAppend(a, b);
    UnhexlifyAppend(a + b, c);
  }

  /** The trailer text "0d05". */
  lemma TrailerDecodes()
    ensures Unhexlify("0d05") == Some(TRAILER)
  {
    assert Format(0x0D, 2) == "0d" && Format(0x05, 2) == "05";
    UnhexlifyByte(0x0D);
    UnhexlifyByte(0x05);
    UnhexlifyAppend("0d", "05");
    assert "0d" + "05" == "0d05";
    assert [0x0D] + [0x05] == TRAILER;
  }

  /** `StrDataCode`: the header and the data text. */
  lemma DataCodeDecodes(d: seq<int>)
    requires |d| == 11
    ensures |HEADER_TEXT + DataText(d)| == 356
    ensures Unhexlify(HEADER_TEXT + DataText(d)) == Some(HEADER_PULSES + DataPulses(Bytes(d)))
  {
    HeaderTextDecodes();
    DataTextDecodes(d);
    UnhexlifyAppend(HEADER_TEXT, DataText(d));
  }

  /** The first four bytes: code, repeat count and the length 182. */
  lemma StartDecodes(n: nat)
    requires n == 356
    ensures |Format(IR_CODE, 2) + Format(0x00, 2) + Val2BrLen(n + 8, 2)| % 2 == 0
    ensures Unhexlify(Format(IR_CODE, 2) + Format(0x00, 2) + Val2BrLen(n + 8, 2))
         == Some([IR_CODE, 0x00] + Le16(182))
  {
    Val2BrLenDecodes(n + 8, 2);
    assert Ceil(n + 8, 2) == 182;
    UnhexlifyByte(IR_CODE);
    UnhexlifyByte(0x00);
    var code, repeat, len := Format(IR_CODE, 2), Format(0x00, 2), Val2BrLen(n + 8, 2);
    assert Unhexlify(code) == Some([IR_CODE]) && Unhexlify(repeat) == Some([0x00]);
    assert Unhexlify(len) == Some(Le16(182));
    UnhexlifyAppend(code, repeat);
    UnhexlifyAppend(code + repeat, len);
    assert Unhexlify(code + repeat + len) == Some([IR_CODE] + [0x00] + Le16(182));
    assert [IR_CODE] + [0x00] + Le16(182) == [IR_CODE, 0x00] + Le16(182);
  }

  /** The frame for an 11-byte payload is 184 bytes: 26 00, the length
      B6 00 (182), the header 6A 35, 176 data pulses and 0D 05. */
  lemma EnvelopeLayout(p: seq<Byte>)
    requires |p| == 11
    ensures var e := Envelope(p);
      && |e| == 184
      && e[..4] == [0x26, 0x00, 0xB6, 0x00]
      && e[4..6] == [0x6A, 0x35]
      && e[6..182] == DataPulses(p)
      && e[182..] == [0x0D, 0x05]
  {
  }

  /** Pair j of byte k of the payload sits at 6 + 16k + 2j: the mark 13,
      then 39 when bit j of that byte is set and 13 when it is clear. */
  lemma EnvelopePulse(p: seq<Byte>, k: nat, j: nat)
    requires k < |p| && j < 8
    ensures var e := Envelope(p);
      && e[6 + 16 * k + 2 * j] == MARK_PULSE
      && e[6 + 16 * k + 2 * j + 1] == (if Bit(p[k], j) then ONE_PULSE else ZERO_PULSE)
  {
    var i := 16 * k + 2 * j;
    DataPairAt(p, k, j);
    EnvelopeData(p, i);
    EnvelopeData(p, i + 1);
  }

  /** Pair j of byte k in the data pulses. */
  lemma DataPairAt(p: seq<Byte>, k: nat, j: nat)
    requires k < |p| && j < 8
    ensures DataPulses(p)[16 * k + 2 * j] == MARK_PULSE
    ensures DataPulses(p)[16 * k + 2 * j + 1] == (if Bit(p[k], j) then ONE_PULSE else ZERO_PULSE)
  {
    DataPulsesAt(p, k, 2 * j);
    DataPulsesAt(p, k, 2 * j + 1);
    PulseBitsAt(p[k], 8, j);
  }

  lemma {:induction false} DataPulsesAt(p: seq<Byte>, k: nat, m: nat)
    requires k < |p| && m < 16
    ensures DataPulses(p)[16 * k + m] == PulseBits(p[k], 8)[m]
    decreases k
  {
    if k > 0 {
      DataPulsesAt(p[1..], k - 1, m);
      assert 16 * k + m == 16 + (16 * (k - 1) + m);
    }
  }

  lemma {:induction false} PulseBitsAt(x: int, n: nat, j: nat)
    requires j < n
    ensures PulseBits(x, n)[2 * j] == MARK_PULSE
    ensures PulseBits(x, n)[2 * j + 1] == (if Bit(x, j) then ONE_PULSE else ZERO_PULSE)
    decreases j
  {
    if j > 0 {
      PulseBitsAt(x / 2, n - 1, j - 1);
    }
  }

  /** Reading the pulses of n bits gives back the low n bits. */
  lemma {:induction false} ReadPulseBits(x: int, n: nat)
    ensures ReadBits(PulseBits(x, n)) == Some(x % Pow2(n))
    decreases n
  {
    if n > 0 {
      ReadPulseBits(x / 2, n - 1);
      ReadPairCons(x % 2 == 1, PulseBits(x / 2, n - 1), (x / 2) % Pow2(n - 1));
      ModDouble(x, Pow2(n - 1));
    }
  }

  /** A pair in front of pulses that read as h reads as h shifted up with
      the pair's bit below it. */
  lemma ReadPairCons(bit: bool, rest: seq<Byte>, h: int)
    requires ReadBits(rest) == Some(h)
    ensures ReadBits(Pair(bit) + rest) == Some((if bit then 1 else 0) + 2 * h)
  {
    PulseUnits();
    var q := Pair(bit) + rest;
    assert q[0] == MARK_PULSE && q[1] == (if bit then ONE_PULSE else ZERO_PULSE);
    assert q[2..] == rest;
  }

  lemma {:induction false} ReadDataPulses(p: seq<Byte>)
    ensures ReadPulses(DataPulses(p)) == Some(p)
    decreases |p|
  {
    if p != [] {
      var q := DataPulses(p);
      assert q[..16] == PulseBits(p[0], 8);
      assert q[16..] == DataPulses(p[1..]);
      ReadBytePulses(p[0]);
      ReadDataPulses(p[1..]);
      ReadPulsesCons(q, p[0], p[1..]);
      assert [p[0]] + p[1..] == p;
    }
  }

  /** The eight pairs of a byte read back as that byte. */
  lemma ReadBytePulses(b: Byte)
    ensures ReadByte(PulseBits(b, 8)) == Some(b)
  {
    ReadPulseBits(b, 8);
    EightBits();
    DivModUnique(b, 256, 0, b);
    assert ReadBits(PulseBits(b, 8)) == Some(b as int);
  }

  lemma ReadPulsesCons(q: seq<Byte>, b: Byte, rest: seq<Byte>)
    requires |q| >= 16
    requires ReadByte(q[..16]) == Some(b) && ReadPulses(q[16..]) == Some(rest)
    ensures ReadPulses(q) == Some([b] + rest)
  {
  }

  /** The parts of a frame, as a reader finds them. */
  lemma EnvelopeParts(p: seq<Byte>)
    ensures var e := Envelope(p);
      && |e| == 16 * |p| + 8
      && e[0] == IR_CODE && e[1] == 0
      && e[2..4] == Le16(16 * |p| + 6)
      && e[4..6] == HEADER_PULSES
      && e[6..|e| - 2] == DataPulses(p)
      && e[|e| - 2..] == TRAILER
  {
    var e := Envelope(p);
    var front, mid := [IR_CODE, 0x00] + Le16(16 * |p| + 6), HEADER_PULSES + DataPulses(p);
    assert e == front + mid + TRAILER;
    assert |front| == 4 && |mid| == 16 * |p| + 2;
    assert e[..4] == front;
    assert e[4..|e| - 2] == mid;
    assert e[2..4] == front[2..4] == Le16(16 * |p| + 6);
    assert e[4..6] == mid[..2] == HEADER_PULSES;
    assert e[6..|e| - 2] == mid[2..] == DataPulses(p);
  }

  /** Data pulse i sits at 6 + i in the frame. */
  lemma EnvelopeData(p: seq<Byte>, i: nat)
    requires i < 16 * |p|
    ensures Envelope(p)[6 + i] == DataPulses(p)[i]
  {
    var e := Envelope(p);
    EnvelopeParts(p);
    assert e[6 + i] == e[6..|e| - 2][i];
  }

  /** The reader that inverts the frame layout `__build_cmd` writes recovers
      the payload. */
  lemma ReadFrameRoundTrip(p: seq<Byte>)
    requires 16 * |p| + 6 < 65536
    ensures ReadFrame(Envelope(p)) == Some(p)
  {
    var e := Envelope(p);
    EnvelopeParts(p);
    Le16Value(16 * |p| + 6);
    assert e[2] == e[2..4][0] && e[3] == e[2..4][1];
    ReadDataPulses(p);
  }
}
