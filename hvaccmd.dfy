/** The class `HVAC_CMD`: one IR command for a Mitsubishi Heavy unit.

    Its settings are instance fields. The 11-entry list `__data` is a class
    attribute, so every instance reads and or-s into the same list; here it
    is the array `data`, handed to each instance by its creator. */
module Hvac {
  import opened Bits
  import opened Wrappers
  import opened Hex
  import opened Timing
  import opened BrCode
  import opened Codes
  import opened Payload
  import opened Frame

  class HvacCmd {
    var power: int
    var mode: int
    var fan: int
    var vSwing: int
    var hSwing: int
    var clean: int
    var temp: int

    /** The class-level list `__data`, shared by every instance. */
    const data: array<int>

    /** `__StrHexCode`: the text of the last build. */
    var strHexCode: string

    /** The settings as `__build_cmd` reads them. */
    function Current(): Settings
      reads this
    {
      Settings(power, mode, fan, vSwing, hSwing, clean, temp)
    }

    /** `HVAC_CMD()`: power off, auto mode and fan, both swings stopped,
        cleaning off, and the class default temperature 24. */
    constructor(shared: array<int>)
      ensures data == shared
      ensures Current() == DEFAULT_SETTINGS
      ensures strHexCode == ""
    {
      data := shared;
      power := POWER_OFF;
      mode := MODE_AUTO;
      fan := FAN_AUTO;
      vSwing := VSWING_STOP;
      hSwing := HSWING_STOP;
      clean := CLEAN_OFF;
      temp := DEFAULT_TEMP;
      strHexCode := "";
    }

    /** The first six lines of `__build_cmd`: or the settings into
        entries 5, 7 and 9 of the shared list and store Python's `~` of each
        in the entry after it. */
    method OrSettings()
      requires data.Length == 11
      modifies data
      ensures data[..] == Built(old(data[..]), Current())
    {
      data[5] := Or(data[5], Or(Or(hSwing, And(vSwing, 0x02)), clean));
      data[6] := Not(data[5]);
      data[7] := Or(data[7], Or(fan, And(vSwing, 0x18)));
      data[8] := Not(data[7]);
      data[9] := Or(data[9], Or(Or(mode, power), temp));
      data[10] := Not(data[9]);
    }

    /** `__build_cmd`: or the settings into the shared list, store the
        complements, and write the Broadlink command text for the list. */
    method BuildCmd()
      requires data.Length == 11
      modifies data, this`strHexCode
      ensures data[..] == Built(old(data[..]), Current())
      ensures strHexCode == CmdText(data[..])
      ensures Unhexlify(strHexCode) == Some(Envelope(Bytes(data[..])))
    {
      OrSettings();
      strHexCode := CommandText(data);
      CmdTextDecodes(data[..]);
    }

    /** `get_cmd`: build, drop blanks and newlines from the text, and decode
        it with `binascii.unhexlify`. `__StrHexCode` keeps the built text; the
        decoding never fails: the result is the frame of the new payload. */
    method GetCmd() returns (r: Option<seq<Byte>>)
      requires data.Length == 11
      modifies data, this`strHexCode
      ensures data[..] == Built(old(data[..]), Current())
      ensures strHexCode == CmdText(data[..])
      ensures r == Some(Envelope(Bytes(data[..])))
    {
      BuildCmd();
      var myhex := strHexCode;
      myhex := Without(Without(myhex, ' '), '\n');
      CmdTextDecodes(data[..]);
      r := Unhexlify(myhex);
    }
  }

  /** The rest of `__build_cmd`: the text of the command for the list, from
      the code, the repeat count, the length, the header, the data and the
      trailer. */
  method CommandText(data: array<int>) returns (br: string)
    ensures br == CmdText(data[..])
  {
    var text := HexCodeText(data);
    br := Format(IR_CODE, 2);
    br := br + Format(0x00, 2);
    var header := Val2BrCode(HDR_MARK * BDCF_NUM, BDCF_DEN, false);
    header := header + Val2BrCode(HDR_SPACE * BDCF_NUM, BDCF_DEN, false);
    assert header == HEADER_TEXT;
    var dataCode := header + text;
    br := br + Val2BrLen(|dataCode| + 8, 2);
    br := br + dataCode;
    br := br + "0d05";
  }

  /** The loops of `__build_cmd` that write `StrHexCode`: the entries of
      the list in order, each as the text of its eight bits. */
  method HexCodeText(data: array<int>) returns (text: string)
    ensures text == DataText(data[..])
  {
    text := "";
    var i := 0;
    while i < data.Length
      invariant 0 <= i <= data.Length
      invariant text == DataText(data[..i])
    {
      var tmp := PulseText(data[i]);
      assert data[..i + 1][..i] == data[..i];
      assert DataText(data[..i + 1]) == DataText(data[..i]) + BitsText(data[i], 8);
      text := text + tmp;
      i := i + 1;
    }
    assert data[..i] == data[..];
  }

  /** The inner loop of `__build_cmd` for one entry x: test bits 0..7 with
      a shifting mask and append a mark and a one- or zero-space for each. */
  method PulseText(x: int) returns (tmp: string)
    ensures tmp == BitsText(x, 8)
  {
    var mask := 1;
    tmp := "";
    var j := 0;
    while j < 8
      invariant 0 <= j <= 8
      invariant mask == Shl(1, j)
      invariant tmp == BitsText(x, j)
    {
      MaskTest(x, j);
      if And(x, mask) != 0 {
        tmp := tmp + Format(MARK_UNITS, 2) + Format(ONE_UNITS, 2);
        assert tmp == BitsText(x, j) + PairText(true);
      } else {
        tmp := tmp + Format(MARK_UNITS, 2) + Format(ZERO_UNITS, 2);
        assert tmp == BitsText(x, j) + PairText(false);
      }
      assert Shl(mask, 1) == 2 * mask;
      mask := Shl(mask, 1);
      j := j + 1;
    }
  }

  /** A list any `HVAC_CMD` build can be applied to, as the class body
      creates it. */
  method NewSharedData() returns (d: array<int>)
    ensures fresh(d)
    ensures d[..] == INITIAL_DATA
  {
    d := new int[11];
    d[0], d[1], d[2], d[3], d[4] := 0x52, 0xAE, 0xC3, 0x26, 0xD9;
    d[5], d[6], d[7], d[8], d[9], d[10] := 0x11, 0x00, 0x07, 0x00, 0x00, 0x00;
  }
}
