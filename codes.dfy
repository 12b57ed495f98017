/** The code tables of `HVAC_CMD` (its nested classes HVAC_Power, HVAC_Mode,
    HVAC_Fan, HVAC_VSwing, HVAC_HSwing and HVAC_Clean), the settings an
    `HVAC_CMD` object carries, and the temperature code of `send_ir`. */
module Codes {
  import opened Bits

  const POWER_OFF: int := 0x08
  const POWER_ON: int := 0x00

  const MODE_AUTO: int := 0x07
  const MODE_COLD: int := 0x06
  const MODE_DRY: int := 0x05
  const MODE_HOT: int := 0x03
  const MODE_FAN: int := 0xD4
  const MODE_MAINT: int := 0x06

  const FAN_AUTO: int := 0xE0
  const FAN_LOW: int := 0xA0
  const FAN_MID: int := 0x80
  const FAN_HIGH: int := 0x60
  const FAN_HIPOWER: int := 0x20
  const FAN_ECONO: int := 0x00

  const VSWING_SWING: int := 0x0A
  const VSWING_UP: int := 0x02
  const VSWING_MUP: int := 0x18
  const VSWING_MIDDLE: int := 0x10
  const VSWING_MDOWN: int := 0x08
  const VSWING_DOWN: int := 0x00
  const VSWING_STOP: int := 0x1A

  const HSWING_STOP: int := 0xCC

  const CLEAN_ON: int := 0xDF
  const CLEAN_OFF: int := 0x20

  /** The class attribute `Temp = 24`, which `__init__` does not reset. */
  const DEFAULT_TEMP: int := 24

  /** The fields of one `HVAC_CMD` object, as Python integers. */
  datatype Settings = Settings(power: int, mode: int, fan: int, vSwing: int,
                               hSwing: int, clean: int, temp: int)

  /** The fields right after `HVAC_CMD()`. */
  const DEFAULT_SETTINGS: Settings :=
    Settings(POWER_OFF, MODE_AUTO, FAN_AUTO, VSWING_STOP, HSWING_STOP, CLEAN_OFF, DEFAULT_TEMP)

  /** The temperature code `send_ir` stores for `int(target)`: the bitwise
      formula for 18..30 and the formula for 24 otherwise. */
  function TempCode(t: int): int {
    if t > 17 && t < 31 then And(Not(Shl(t - 17, 4)), 0xF0)
    else And(Not(Shl(24 - 17, 4)), 0xF0)
  }

  predicate IsModeCode(m: int) {
    m in {MODE_AUTO, MODE_COLD, MODE_DRY, MODE_HOT, MODE_FAN}
  }

  predicate IsFanCode(f: int) {
    f in {FAN_AUTO, FAN_LOW, FAN_MID, FAN_HIGH, FAN_HIPOWER, FAN_ECONO}
  }

  predicate IsVSwingCode(v: int) {
    v in {VSWING_SWING, VSWING_UP, VSWING_MUP, VSWING_MIDDLE, VSWING_MDOWN, VSWING_DOWN, VSWING_STOP}
  }

  // ---------------------------------------------------------------------

  /** `(~(k << 4)) & 0xF0` keeps the complement of the nibble k, shifted up. */
  lemma ComplementNibble(k: int)
    requires 0 <= k < 16
    ensures And(Not(Shl(k, 4)), 0xF0) == 16 * (15 - k)
  {
    var r := And(Not(Shl(k, 4)), 0xF0);
    assert 0xF0 == Shl(15, 4);
    assert Pow2(4) == 16;
    ShlMul(15 - k, 4);
    forall i: nat
      ensures Bit(r, i) == Bit(Shl(15 - k, 4), i)
    {
      AndBit(Not(Shl(k, 4)), Shl(15, 4), i);
      NotBit(Shl(k, 4), i);
      ShlBit(k, 4, i);
      ShlBit(15, 4, i);
      ShlBit(15 - k, 4, i);
      if i >= 4 {
        var m := i - 4;
        DivModUnique(Not(k), 16, -1, 15 - k);
        DivModUnique(-1, 16, -1, 15);
        LowBits(Not(k), 4, m);
        LowBits(-1, 4, m);
        NotBit(k, m);
        SignBits(-1, m);
      }
    }
    BitsDetermine(r, Shl(15 - k, 4));
  }

  /** The temperature code is (32 - t) * 16 for 18..30 and 0x80, the code of
      24, for every other integer. */
  lemma TempCodeValue(t: int)
    ensures TempCode(t) == if 17 < t < 31 then (32 - t) * 16 else 0x80
  {
    if 17 < t < 31 {
      ComplementNibble(t - 17);
    } else {
      ComplementNibble(7);
    }
  }

  /** The code uses the high nibble only, runs from 0xE0 at 18 down to 0x20
      at 30, and falls strictly as the temperature rises. */
  lemma TempCodeShape(t: int, u: int)
    ensures TempCode(t) % 16 == 0 && 0x20 <= TempCode(t) <= 0xE0
    ensures t == 18 ==> TempCode(t) == 0xE0
    ensures t == 30 ==> TempCode(t) == 0x20
    ensures 17 < t < u < 31 ==> TempCode(t) > TempCode(u)
    ensures !(17 < t < 31) && u == 24 ==> TempCode(t) == TempCode(u)
  {
    TempCodeValue(t);
    TempCodeValue(u);
  }
}
