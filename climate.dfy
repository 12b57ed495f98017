/** The climate entity `BroadlinkIRMHIClimate`: how `send_ir` turns the
    entity's operation, fan and swing strings and its target temperature
    into an `HVAC_CMD`, and when the setters send.

    Sending to the Broadlink device is recorded as a `Sent` event carrying
    the decoded frame; asking Home Assistant to store the new state
    (`schedule_update_ha_state`) as a `StateWritten` event. A Python
    exception escaping a method is its `Error` result. */
module Climate {
  import opened Bits
  import opened Wrappers
  import opened Codes
  import opened Payload
  import opened Frame
  import opened Hvac

  // ---------------------------------------------------------------------
  // Values

  /** Python `c.lower()` for one character (ASCII letters only). */
  function LowerChar(c: char): char {
    if 'A' <= c <= 'Z' then (c as int - 'A' as int + 'a' as int) as char else c
  }

  /** Python `s.lower()`. */
  function Lower(s: string): (r: string)
    ensures |r| == |s|
    ensures forall i :: 0 <= i < |s| ==> r[i] == LowerChar(s[i])
  {
    if s == [] then [] else [LowerChar(s[0])] + Lower(s[1..])
  }

  type Pos = n: int | n > 0 witness 1

  /** A temperature as Home Assistant passes it (an int or a float), as the
      exact fraction num / den. */
  datatype Number = Number(num: int, den: Pos)

  /** Python `int(x)`: the integer part, rounding toward zero. */
  function Trunc(x: Number): int {
    if x.num >= 0 then x.num / x.den else -((-x.num) / x.den)
  }

  /** The exception a call raises. */
  datatype Error = AttributeError(name: string)

  datatype Event = Sent(frame: seq<Byte>) | StateWritten

  // ---------------------------------------------------------------------
  // The mapping `send_ir` performs

  /** `MyHVAC.Power`: off only for the operation 'off'. */
  function PowerCode(section: string): int {
    if section == "off" then POWER_OFF else POWER_ON
  }

  /** `MyHVAC.Mode`: the five recognised operations; anything else keeps the
      `Auto` that `HVAC_CMD()` set. */
  function ModeCode(section: string): int {
    if section == "auto" then MODE_AUTO
    else if section == "cool" then MODE_COLD
    else if section == "heat" then MODE_HOT
    else if section == "dry" then MODE_DRY
    else if section == "fan_only" then MODE_FAN
    else MODE_AUTO
  }

  /** `MyHVAC.Fan`: 'med' looks up `HVAC_Fan.Med`, which the table does not
      define, and raises; anything unrecognised keeps `Auto`. */
  function FanCode(speed: string): Result<int, Error> {
    if speed == "auto" then Success(FAN_AUTO)
    else if speed == "low" then Success(FAN_LOW)
    else if speed == "med" then Failure(AttributeError("Med"))
    else if speed == "high" then Success(FAN_HIGH)
    else if speed == "hipower" then Success(FAN_HIPOWER)
    else if speed == "econo" then Success(FAN_ECONO)
    else Success(FAN_AUTO)
  }

  /** `MyHVAC.VSwing`: 'manual' and anything unrecognised give `Stop`. */
  function VSwingCode(swing: string): int {
    if swing == "manual" then VSWING_STOP
    else if swing == "swing" then VSWING_SWING
    else if swing == "up" then VSWING_UP
    else if swing == "m-up" then VSWING_MUP
    else if swing == "middle" then VSWING_MIDDLE
    else if swing == "m-down" then VSWING_MDOWN
    else if swing == "down" then VSWING_DOWN
    else VSWING_STOP
  }

  /** The settings `send_ir` gives its `HVAC_CMD`, or the exception it
      raises before sending. The temperatures written for 'auto' and
      'fan_only' are always overwritten by the temperature code. */
  function MapSettings(operation: string, fanMode: string, swing: string, target: Number): Result<Settings, Error> {
    var section := Lower(operation);
    match FanCode(Lower(fanMode))
    case Failure(e) => Failure(e)
    case Success(fan) =>
      Success(Settings(PowerCode(section), ModeCode(section), fan, VSwingCode(Lower(swing)),
                       HSWING_STOP, CLEAN_OFF, TempCode(Trunc(target))))
  }

  /** What one `send_ir` does to the shared list d: the new list, the events
      and the exception. */
  datatype Outcome = Outcome(data: seq<int>, sent: seq<Event>, raised: Option<Error>)

  function Send(m: Result<Settings, Error>, d: seq<int>): Outcome
    requires |d| == 11
  {
    match m
    case Failure(e) => Outcome(d, [], Some(e))
    case Success(s) => Outcome(Built(d, s), [Sent(Envelope(Bytes(Built(d, s))))], None)
  }

  /** A setter's events: the send's, then the state write unless the send
      raised. */
  function Written(o: Outcome): seq<Event> {
    o.sent + (if o.raised.None? then [StateWritten] else [])
  }

  /** The entity sends on a temperature or fan change unless it is off or
      idle. */
  predicate IsActive(operation: string) {
    !(Lower(operation) == "off" || Lower(operation) == "idle")
  }

  // ---------------------------------------------------------------------
  // The entity

  class MhiClimate {
    var targetTemperature: Number
    /** The sensor reading; only the overwritten 'auto' assignment uses it. */
    var currentTemperature: int
    var currentOperation: string
    var currentFanMode: string
    var currentSwing: string
    const defaultOperationFromIdle: Option<string>
    /** The class-level list of `HVAC_CMD` that every command or-s into. */
    const buffer: array<int>
    var events: seq<Event>

    /** `__init__`, for the fields the core uses; the reading starts at 0. */
    constructor(shared: array<int>, target: Number, operation: string, fanMode: string,
                swing: string, fromIdle: Option<string>)
      ensures buffer == shared
      ensures targetTemperature == target && currentTemperature == 0
      ensures currentOperation == operation && currentFanMode == fanMode && currentSwing == swing
      ensures defaultOperationFromIdle == fromIdle && events == []
    {
      buffer := shared;
      targetTemperature := target;
      currentTemperature := 0;
      currentOperation := operation;
      currentFanMode := fanMode;
      currentSwing := swing;
      defaultOperationFromIdle := fromIdle;
      events := [];
    }

    /** `send_ir`: a new `HVAC_CMD` over the shared list, set up from the
        entity's strings and target, and its frame sent. */
    method SendIr() returns (raised: Option<Error>)
      requires buffer.Length == 11
      modifies buffer, this`events
      ensures var o := Send(MapSettings(currentOperation, currentFanMode, currentSwing, targetTemperature),
                            old(buffer[..]));
        buffer[..] == o.data && events == old(events) + o.sent && raised == o.raised
    {
      var cmd := new HvacCmd(buffer);
      raised := SetUp(cmd, currentOperation, currentFanMode, currentSwing, targetTemperature, currentTemperature);
      if raised.Some? {
        return;
      }
      var payload := cmd.GetCmd();
      events := events + [Sent(payload.value)];
      raised := None;
    }

    /** `set_temperature`: with a temperature, store it; then send if the
        entity is active, or else switch to the configured operation for
        leaving idle, if any; then write the state. */
    method SetTemperature(temperature: Option<Number>) returns (raised: Option<Error>)
      requires buffer.Length == 11
      modifies buffer, this`targetTemperature, this`currentOperation, this`events
      ensures currentFanMode == old(currentFanMode) && currentSwing == old(currentSwing)
      ensures temperature.None? ==>
        && targetTemperature == old(targetTemperature) && currentOperation == old(currentOperation)
        && buffer[..] == old(buffer[..]) && events == old(events) && raised == None
      ensures temperature.Some? ==> targetTemperature == temperature.value
      ensures temperature.Some? && IsActive(old(currentOperation)) ==>
        var o := Send(MapSettings(currentOperation, currentFanMode, currentSwing, targetTemperature),
                      old(buffer[..]));
        && currentOperation == old(currentOperation)
        && buffer[..] == o.data && events == old(events) + Written(o) && raised == o.raised
      ensures temperature.Some? && !IsActive(old(currentOperation)) && defaultOperationFromIdle.Some? ==>
        var o := Send(MapSettings(defaultOperationFromIdle.value, currentFanMode, currentSwing, targetTemperature),
                      old(buffer[..]));
        && currentOperation == defaultOperationFromIdle.value
        && buffer[..] == o.data && raised == o.raised
        && events == old(events) + Written(o) + (if o.raised.None? then [StateWritten] else [])
      ensures temperature.Some? && !IsActive(old(currentOperation)) && defaultOperationFromIdle.None? ==>
        && currentOperation == old(currentOperation)
        && buffer[..] == old(buffer[..]) && events == old(events) + [StateWritten] && raised == None
    {
      raised := None;
      if temperature.Some? {
        targetTemperature := temperature.value;
        if !(Lower(currentOperation) == "off" || Lower(currentOperation) == "idle") {
          raised := SendIr();
        } else if defaultOperationFromIdle.Some? {
          raised := SetOperationMode(defaultOperationFromIdle.value);
        }
        if raised.Some? {
          return;
        }
        events := events + [StateWritten];
      }
    }

    /** `set_fan_mode`: store the fan mode, send if the entity is active,
        write the state. */
    method SetFanMode(fan: string) returns (raised: Option<Error>)
      requires buffer.Length == 11
      modifies buffer, this`currentFanMode, this`events
      ensures currentFanMode == fan
      ensures IsActive(currentOperation) ==>
        var o := Send(MapSettings(currentOperation, fan, currentSwing, targetTemperature), old(buffer[..]));
        buffer[..] == o.data && events == old(events) + Written(o) && raised == o.raised
      ensures !IsActive(currentOperation) ==>
        buffer[..] == old(buffer[..]) && events == old(events) + [StateWritten] && raised == None
    {
      currentFanMode := fan;
      raised := None;
      if !(Lower(currentOperation) == "off" || Lower(currentOperation) == "idle") {
        raised := SendIr();
        if raised.Some? {
          return;
        }
      }
      events := events + [StateWritten];
    }

    /** `set_operation_mode`: store the operation, always send, write the
        state. */
    method SetOperationMode(operation: string) returns (raised: Option<Error>)
      requires buffer.Length == 11
      modifies buffer, this`currentOperation, this`events
      ensures currentOperation == operation
      ensures var o := Send(MapSettings(operation, currentFanMode, currentSwing, targetTemperature), old(buffer[..]));
        buffer[..] == o.data && events == old(events) + Written(o) && raised == o.raised
    {
      currentOperation := operation;
      raised := SendIr();
      if raised.Some? {
        return;
      }
      events := events + [StateWritten];
    }

    /** `set_swing_mode`: store the swing, always send, write the state. */
    method SetSwingMode(swing: string) returns (raised: Option<Error>)
      requires buffer.Length == 11
      modifies buffer, this`currentSwing, this`events
      ensures currentSwing == swing
      ensures var o := Send(MapSettings(currentOperation, currentFanMode, swing, targetTemperature), old(buffer[..]));
        buffer[..] == o.data && events == old(events) + Written(o) && raised == o.raised
    {
      currentSwing := swing;
      raised := SendIr();
      if raised.Some? {
        return;
      }
      events := events + [StateWritten];
    }
  }

  // ---------------------------------------------------------------------
  // The four blocks of `send_ir` that set up its `HVAC_CMD`

  /** The set-up part of `send_ir`: the fields of a fresh `HVAC_CMD` from
      the entity's three strings, its target and its reading. */
  method SetUp(cmd: HvacCmd, operation: string, fanMode: string, swing: string, target: Number, current: int)
      returns (raised: Option<Error>)
    requires cmd.Current() == DEFAULT_SETTINGS
    modifies cmd
    ensures var m := MapSettings(operation, fanMode, swing, target);
      && raised == (if m.Failure? then Some(m.error) else None)
      && (m.Success? ==> cmd.Current() == m.value)
  {
    var section := Lower(operation);
    SetUpOperation(cmd, section, current);
    var fanspeed := Lower(fanMode);
    raised := SetUpFan(cmd, fanspeed);
    if raised.Some? {
      return;
    }
    var temperature := Trunc(target);
    SetUpTemperature(cmd, temperature);
    var vSwing := Lower(swing);
    SetUpSwing(cmd, vSwing);
  }

  /** Power from the operation; the mode for the five operations, with the
      temperatures 'auto' and 'fan_only' write. */
  method SetUpOperation(cmd: HvacCmd, section: string, current: int)
    modifies cmd
    ensures cmd.power == PowerCode(section) && cmd.mode == (if section in {"auto", "cool", "heat", "dry", "fan_only"} then ModeCode(section) else old(cmd.mode))
    ensures cmd.temp == (if section == "auto" then 0x80 - 0x10 * current
                         else if section == "fan_only" then 0 else old(cmd.temp))
    ensures cmd.fan == old(cmd.fan) && cmd.vSwing == old(cmd.vSwing) && cmd.hSwing == old(cmd.hSwing)
    ensures cmd.clean == old(cmd.clean) && cmd.strHexCode == old(cmd.strHexCode)
  {
    if section == "off" {
      cmd.power := POWER_OFF;
    } else {
      cmd.power := POWER_ON;
    }
    if section == "auto" {
      cmd.mode := MODE_AUTO;
      cmd.temp := 0x80 - 0x10 * current;
    } else if section == "cool" {
      cmd.mode := MODE_COLD;
    } else if section == "heat" {
      cmd.mode := MODE_HOT;
    } else if section == "dry" {
      cmd.mode := MODE_DRY;
    } else if section == "fan_only" {
      cmd.mode := MODE_FAN;
      cmd.temp := 0;
    }
  }

  /** The fan from its name; 'med' raises, leaving the fan as it was. */
  method SetUpFan(cmd: HvacCmd, fanspeed: string) returns (raised: Option<Error>)
    modifies cmd
    ensures raised == (if FanCode(fanspeed).Failure? then Some(FanCode(fanspeed).error) else None)
    ensures cmd.fan == (if fanspeed in {"auto", "low", "high", "hipower", "econo"} then FanCode(fanspeed).value else old(cmd.fan))
    ensures cmd.power == old(cmd.power) && cmd.mode == old(cmd.mode) && cmd.temp == old(cmd.temp)
    ensures cmd.vSwing == old(cmd.vSwing) && cmd.hSwing == old(cmd.hSwing)
    ensures cmd.clean == old(cmd.clean) && cmd.strHexCode == old(cmd.strHexCode)
  {
    raised := None;
    if fanspeed == "auto" {
      cmd.fan := FAN_AUTO;
    } else if fanspeed == "low" {
      cmd.fan := FAN_LOW;
    } else if fanspeed == "med" {
      raised := Some(AttributeError("Med"));
    } else if fanspeed == "high" {
      cmd.fan := FAN_HIGH;
    } else if fanspeed == "hipower" {
      cmd.fan := FAN_HIPOWER;
    } else if fanspeed == "econo" {
      cmd.fan := FAN_ECONO;
    }
  }

  /** The temperature code of the integer target. */
  method SetUpTemperature(cmd: HvacCmd, temperature: int)
    modifies cmd
    ensures cmd.temp == TempCode(temperature)
    ensures cmd.power == old(cmd.power) && cmd.mode == old(cmd.mode) && cmd.fan == old(cmd.fan)
    ensures cmd.vSwing == old(cmd.vSwing) && cmd.hSwing == old(cmd.hSwing)
    ensures cmd.clean == old(cmd.clean) && cmd.strHexCode == old(cmd.strHexCode)
  {
    if temperature > 17 && temperature < 31 {
      cmd.temp := And(Not(Shl(temperature - 17, 4)), 0xF0);
    } else {
      cmd.temp := And(Not(Shl(24 - 17, 4)), 0xF0);
    }
  }

  /** The vertical swing from its name. */
  method SetUpSwing(cmd: HvacCmd, vSwing: string)
    modifies cmd
    ensures cmd.vSwing == (if vSwing in {"manual", "swing", "up", "m-up", "middle", "m-down", "down"} then VSwingCode(vSwing) else old(cmd.vSwing))
    ensures cmd.power == old(cmd.power) && cmd.mode == old(cmd.mode) && cmd.fan == old(cmd.fan)
    ensures cmd.temp == old(cmd.temp) && cmd.hSwing == old(cmd.hSwing)
    ensures cmd.clean == old(cmd.clean) && cmd.strHexCode == old(cmd.strHexCode)
  {
    if vSwing == "manual" {
      cmd.vSwing := VSWING_STOP;
    } else if vSwing == "swing" {
      cmd.vSwing := VSWING_SWING;
    } else if vSwing == "up" {
      cmd.vSwing := VSWING_UP;
    } else if vSwing == "m-up" {
      cmd.vSwing := VSWING_MUP;
    } else if vSwing == "middle" {
      cmd.vSwing := VSWING_MIDDLE;
    } else if vSwing == "m-down" {
      cmd.vSwing := VSWING_MDOWN;
    } else if vSwing == "down" {
      cmd.vSwing := VSWING_DOWN;
    }
  }

  // ---------------------------------------------------------------------
  // Lemmas about the mapping

  lemma LowerCharIdempotent(c: char)
    ensures LowerChar(LowerChar(c)) == LowerChar(c)
  {
  }

  /** Lower-casing twice is lower-casing once. */
  lemma LowerIdempotent(s: string)
    ensures Lower(Lower(s)) == Lower(s)
  {
    forall i | 0 <= i < |s|
      ensures Lower(Lower(s))[i] == Lower(s)[i]
    {
      LowerCharIdempotent(s[i]);
    }
  }

  /** The mapping ignores letter case in all three strings. */
  lemma MapIgnoresCase(operation: string, fanMode: string, swing: string, target: Number)
    ensures MapSettings(Lower(operation), Lower(fanMode), Lower(swing), target)
         == MapSettings(operation, fanMode, swing, target)
  {
    LowerIdempotent(operation);
    LowerIdempotent(fanMode);
    LowerIdempotent(swing);
  }

  /** The mapping raises exactly for the fan mode 'med', in any case. */
  lemma MapRaisesOnlyForMed(operation: string, fanMode: string, swing: string, target: Number)
    ensures MapSettings(operation, fanMode, swing, target).Failure?
        <==> Lower(fanMode) == "med"
    ensures Lower(fanMode) == "med" ==>
      MapSettings(operation, fanMode, swing, target) == Failure(AttributeError("Med"))
  {
  }

  /** Whatever the operation, the temperature sent is the code of the
      integer part of the target: the 'auto' and 'fan_only' assignments are
      overwritten. Cleaning is off and the horizontal swing stopped. */
  lemma MapTemperature(operation: string, fanMode: string, swing: string, target: Number)
    requires Lower(fanMode) != "med"
    ensures var m := MapSettings(operation, fanMode, swing, target);
      && m.Success?
      && m.value.temp == TempCode(Trunc(target))
      && m.value.clean == CLEAN_OFF && m.value.hSwing == HSWING_STOP
  {
  }

  /** 'off' sends power off with mode `Auto`; every other operation sends
      power on. */
  lemma MapPower(operation: string, fanMode: string, swing: string, target: Number)
    requires Lower(fanMode) != "med"
    ensures var m := MapSettings(operation, fanMode, swing, target);
      && (m.value.power == POWER_OFF <==> Lower(operation) == "off")
      && (m.value.power == POWER_ON <==> Lower(operation) != "off")
      && (Lower(operation) == "off" ==> m.value.mode == MODE_AUTO)
  {
  }

  /** Each of the five operations picks its own mode; anything else, 'off'
      and 'idle' among them, gives `Auto`. */
  lemma MapMode(operation: string, fanMode: string, swing: string, target: Number)
    requires Lower(fanMode) != "med"
    ensures var m, op := MapSettings(operation, fanMode, swing, target), Lower(operation);
      && IsModeCode(m.value.mode)
      && (op == "cool" ==> m.value.mode == MODE_COLD)
      && (op == "heat" ==> m.value.mode == MODE_HOT)
      && (op == "dry" ==> m.value.mode == MODE_DRY)
      && (op == "fan_only" ==> m.value.mode == MODE_FAN)
      && (op !in {"cool", "heat", "dry", "fan_only"} ==> m.value.mode == MODE_AUTO)
  {
  }

  /** The fan: the five names that work pick their codes; anything else,
      including the 'mid' of the default fan list, leaves `Auto`, so
      `Fan.Mid` (0x80) is never sent. */
  lemma MapFan(operation: string, fanMode: string, swing: string, target: Number)
    requires Lower(fanMode) != "med"
    ensures var m, f := MapSettings(operation, fanMode, swing, target), Lower(fanMode);
      && IsFanCode(m.value.fan) && m.value.fan != FAN_MID
      && (f == "low" ==> m.value.fan == FAN_LOW)
      && (f == "high" ==> m.value.fan == FAN_HIGH)
      && (f == "hipower" ==> m.value.fan == FAN_HIPOWER)
      && (f == "econo" ==> m.value.fan == FAN_ECONO)
      && (f !in {"low", "high", "hipower", "econo"} ==> m.value.fan == FAN_AUTO)
  {
  }

  /** The vertical swing: 'manual' and anything unrecognised give `Stop`. */
  lemma MapSwing(operation: string, fanMode: string, swing: string, target: Number)
    requires Lower(fanMode) != "med"
    ensures var m, v := MapSettings(operation, fanMode, swing, target), Lower(swing);
      && IsVSwingCode(m.value.vSwing)
      && (v == "swing" ==> m.value.vSwing == VSWING_SWING)
      && (v == "up" ==> m.value.vSwing == VSWING_UP)
      && (v == "m-up" ==> m.value.vSwing == VSWING_MUP)
      && (v == "middle" ==> m.value.vSwing == VSWING_MIDDLE)
      && (v == "m-down" ==> m.value.vSwing == VSWING_MDOWN)
      && (v == "down" ==> m.value.vSwing == VSWING_DOWN)
      && (v !in {"swing", "up", "m-up", "middle", "m-down", "down"} ==> m.value.vSwing == VSWING_STOP)
  {
  }

  /** `int()` of a non-negative value rounds down. */
  lemma TruncNonNegative(x: Number)
    requires x.num >= 0
    ensures Trunc(x) >= 0 && Trunc(x) * x.den <= x.num < (Trunc(x) + 1) * x.den
  {
    var n, d := x.num, x.den as int;
    var q, r := n / d, n % d;
    assert n == d * q + r && 0 <= r < d;
    assert (q + 1) * d == q * d + d;
  }

  /** `int()` of a negative value rounds up, toward zero. */
  lemma TruncNegative(x: Number)
    requires x.num < 0
    ensures Trunc(x) <= 0 && (Trunc(x) - 1) * x.den < x.num <= Trunc(x) * x.den
  {
    var n, d := x.num, x.den as int;
    var q, r := (-n) / d, (-n) % d;
    assert -n == d * q + r && 0 <= r < d;
    assert Trunc(x) == -q;
    assert (-q - 1) * d == -(q * d) - d;
    assert -q * d == -(q * d);
  }

  /** A send that does not raise leaves a list whose payload starts with the
      fixed prefix, whose checksum bytes complement their data bytes, and
      whose frame is what was sent. */
  lemma SendFrame(m: Result<Settings, Error>, d: seq<int>)
    requires |d| == 11 && d[..5] == PREFIX
    requires m.Success?
    ensures var o := Send(m, d);
      && o.raised == None
      && o.data[..5] == PREFIX
      && o.sent == [Sent(Envelope(Bytes(o.data)))]
      && ReadFrame(Envelope(Bytes(o.data))) == Some(Bytes(o.data))
      && var p := Bytes(o.data);
         p[6] == 255 - p[5] && p[8] == 255 - p[7] && p[10] == 255 - p[9]
  {
    BuiltKeepsPrefix(d, m.value);
    BuiltChecksums(d, m.value);
    ReadFrameRoundTrip(Bytes(Built(d, m.value)));
  }

  /** Sending the same settings twice in a row sends the same frame. */
  lemma SendTwice(m: Result<Settings, Error>, d: seq<int>)
    requires |d| == 11 && m.Success?
    ensures Send(m, Send(m, d).data) == Send(m, d)
  {
    BuiltIdempotent(d, m.value);
  }

  /** Once any command has gone out with power off, every later command over
      the shared list still has the off bit set, even those for 'heat' or
      'cool'. */
  lemma OffIsSticky(m: Result<Settings, Error>, d: seq<int>)
    requires |d| == 11 && m.Success? && Bit(d[9], 3)
    ensures Bit(Bytes(Send(m, d).data)[9], 3)
  {
    OffBitSticks(d, m.value);
  }

  /** The first command over a fresh list carries the off bit exactly when
      the operation is 'off'. */
  lemma FreshOffBit(operation: string, fanMode: string, swing: string, target: Number)
    requires Lower(fanMode) != "med"
    ensures Bit(Bytes(Send(MapSettings(operation, fanMode, swing, target), INITIAL_DATA).data)[9], 3)
        <==> Lower(operation) == "off"
  {
    var s := MapSettings(operation, fanMode, swing, target).value;
    MapMode(operation, fanMode, swing, target);
    MapPower(operation, fanMode, swing, target);
    TempCodeShape(Trunc(target), 24);
    FreshPowerBit(s);
  }

  /** The entity as configured by default (operation 'off', fan 'auto', swing
      'Manual', target 24) maps to the settings of a fresh `HVAC_CMD` with
      the temperature code of 24, and its first frame over a fresh list
      carries 52 AE C3 26 D9 FF 00 FF 00 8F 70. */
  lemma DefaultFirstPayload()
    ensures MapSettings("off", "auto", "Manual", Number(24, 1)) == Success(DEFAULT_SETTINGS.(temp := 0x80))
    ensures Bytes(Send(MapSettings("off", "auto", "Manual", Number(24, 1)), INITIAL_DATA).data)
         == PREFIX + [0xFF, 0x00, 0xFF, 0x00, 0x8F, 0x70]
  {
    DefaultMapping();
    var s := DEFAULT_SETTINGS.(temp := 0x80);
    assert Send(Success(s), INITIAL_DATA).data == Built(INITIAL_DATA, s);
    FreshOffPayload();
  }

  lemma DefaultMapping()
    ensures MapSettings("off", "auto", "Manual", Number(24, 1)) == Success(DEFAULT_SETTINGS.(temp := 0x80))
  {
    TempCodeValue(24);
    assert Trunc(Number(24, 1)) == 24;
    DefaultStrings();
  }

  lemma DefaultStrings()
    ensures Lower("off") == "off" && Lower("auto") == "auto" && Lower("Manual") == "manual"
  {
  }
}
