# Broadlink IR encoder for Mitsubishi Heavy air conditioners, in Dafny

This project models the command encoder of the Home Assistant climate
platform `broadlink-mhi`, which drives a Mitsubishi Heavy (MHI) air
conditioner through a Broadlink RM infrared blaster. It covers three parts.

- **The `HVAC_CMD` class.** Its code tables, its `__init__`, the 11-entry
  payload list `__data`, `__val2BrCode`, `__val2BrLen`, `__build_cmd` and
  `get_cmd`. These turn a set of settings into the Broadlink frame:
  - `26 00`;
  - a little-endian length;
  - the header pulses `6A 35`;
  - sixteen data pulses per payload byte;
  - `0D 05`.
- **`send_ir` of the climate entity.** It maps the operation, fan and swing
  strings and the target temperature to `HVAC_CMD` settings.
- **The four setters.** `set_temperature`, `set_fan_mode`,
  `set_operation_mode` and `set_swing_mode` decide when a command is sent
  and when the entity state is written.

The model follows the code literally.

- **Python integers keep their semantics.** Python's integers are unbounded
  two's-complement bit strings. `Bits` gives `|`, `&`, `~` and `<<` exactly
  that meaning. So the checksum entries `__data[6] = ~__data[5]` hold the
  negative numbers Python stores. Only their low byte reaches the frame,
  and that byte is 255 minus the data byte.
- **The payload list is shared.** `__data` is a class attribute, so every
  `HVAC_CMD` ever created or-s its settings into the same list. The model
  keeps that list as one `array<int>` (`MhiClimate.buffer`). Each new
  `HvacCmd` receives it.
  - Bits only accumulate: `Payload.BuiltGainsBits` and `Climate.OffIsSticky`.
  - Once a power-off command has been sent, every later frame still carries
    the off bit.
  - Over a fresh list, the first command's off bit is set exactly for the
    operation 'off': `Climate.FreshOffBit`. With the default configuration
    that first payload is the one of `Climate.DefaultFirstPayload`.
- **Pulse timings are rounded as written.** The factor BDCF = 269/8192 is
  exact in binary floating point.
  - The data pulses use `int(x * BDCF)`, which truncates: a mark is 13
    units, not 14.
  - Only the header pulses go through `__val2BrCode`, which rounds up
    (106 = 0x6A and 53 = 0x35).
  - `Timing.UnitValues` states the values.
- **Strings keep their text form.** `"%0.Nx"` formatting, the string
  slicing of `__val2BrCode` and `__val2BrLen` and `binascii.unhexlify` are
  modelled on strings. Lemmas tie the text to the bytes it decodes to. The
  length field `len(StrDataCode)/2 + 4` is a float division in Python 3,
  rounded up by `__val2BrLen`; for the 11-byte payload it is exactly 182.
- **The fan strings `med` and `mid` behave as the code makes them.**
  - For the fan mode `med`, `send_ir` reads `HVAC_Fan.Med`, which the table
    does not define (it has `Mid`). The call raises `AttributeError`, and the
    exception escapes the setter before the state is written.
  - The `mid` of the default fan list matches no branch, so the fan stays
    `Auto`, and `Fan.Mid` is never sent.
  - The model returns the exception as an `Error` result:
    `Climate.MapRaisesOnlyForMed` and `Climate.MapFan`.
- **The entity fields are overwritten as written.** The temperature code
  overwrites the temperatures that the `auto` and `fan_only` branches write.

The modules follow the program:

| module | contents |
|---|---|
| `Bits` | Python's integer bit operations |
| `Hex` | hex text |
| `Timing` | the pulse timings |
| `BrCode` | `__val2BrCode` and `__val2BrLen` |
| `Codes` | the code tables and the temperature code |
| `Payload` | what a build does to `__data` |
| `Frame` | the frame text and the frame bytes |
| `Hvac` | the `HVAC_CMD` class |
| `Climate` | the entity |

## Model

All source paths are in `custom_components/climate/broadlink-mhi.py`.

| member | source | states |
|---|---|---|
| Timing.Floor | custom_components/climate/broadlink-mhi.py:147-149 | `int()` of a positive scaled duration is the largest integer not above it |
| Timing.Ceil | custom_components/climate/broadlink-mhi.py:109 | `int(math.ceil())` is the smallest integer not below the value |
| Timing.UnitValues | custom_components/climate/broadlink-mhi.py:34-38 | data pulses are 13, 39 and 13 units (truncated, one less than rounding up for the mark); the header pulses are 106 and 53 |
| Bits.Or | custom_components/climate/broadlink-mhi.py:134-139 | Python's bitwise or on unbounded two's-complement integers; its bit-by-bit law is `Bits.OrBit`, with `Bits.OrKeepsBits` and `Bits.OrAbsorb` |
| Bits.And | custom_components/climate/broadlink-mhi.py:146 | Python `a & b`; `Bits.MaskTest` states that the mask test reads bit j |
| Bits.Not | custom_components/climate/broadlink-mhi.py:135 | Python `~a`, which is -a - 1; `Bits.Low8Not` states its low byte |
| Bits.Shl | custom_components/climate/broadlink-mhi.py:146-150 | Python `x << n`; `Bits.MaskTest` states that `1 << j` selects bit j |
| Bits.MaskTest | custom_components/climate/broadlink-mhi.py:146 | `x & mask != 0` with `mask = 1 << j` holds exactly when bit j of x is set, negative x included |
| Bits.Low8Not | custom_components/climate/broadlink-mhi.py:135 | the low byte of `~x` is 255 minus the low byte of x |
| Bits.OrKeepsBits | custom_components/climate/broadlink-mhi.py:134 | the or-assignment never clears a bit |
| Bits.OrAbsorb | custom_components/climate/broadlink-mhi.py:134 | or-ing the same bits a second time changes nothing |
| Hex.Format | custom_components/climate/broadlink-mhi.py:112 | `"%0.Nx"` prints at least N digits, and exactly N when the value is below 16^N |
| Hex.FormatIsHex | custom_components/climate/broadlink-mhi.py:112 | the formatted text is all hex digits |
| Hex.FormatRoundTrip | custom_components/climate/broadlink-mhi.py:112 | the formatted digits denote the value again |
| Hex.FormatPadding | custom_components/climate/broadlink-mhi.py:115 | a value that needs more than w digits prints the same with one more digit of padding |
| Hex.FormatSplit | custom_components/climate/broadlink-mhi.py:115 | `"%0.4x"` of a 16-bit value is the high byte's two digits then the low byte's two |
| Hex.Unhexlify | custom_components/climate/broadlink-mhi.py:184 | `unhexlify` succeeds exactly on even-length all-hex text, giving one byte per two digits |
| Hex.UnhexlifyAppend | custom_components/climate/broadlink-mhi.py:184 | decoding a concatenation split at an even position is the concatenation of the decodings |
| Hex.UnhexlifyByte | custom_components/climate/broadlink-mhi.py:112 | `"%0.2x"` of a byte decodes to that one byte |
| Hex.Without | custom_components/climate/broadlink-mhi.py:181 | `replace(c, '')` leaves no c, shortens or keeps the text, and changes nothing when c is absent |
| Hex.WithoutChar | custom_components/climate/broadlink-mhi.py:181 | on one character, `replace(c, '')` drops it exactly when it is c |
| Hex.WithoutAppend | custom_components/climate/broadlink-mhi.py:181 | `replace(c, '')` of a concatenation is the concatenation of the results, so every other character is kept, in order |
| Hex.HexHasNoBlanks | custom_components/climate/broadlink-mhi.py:181 | hex text has no blanks or newlines for `get_cmd` to remove |
| BrCode.Val2BrCode | custom_components/climate/broadlink-mhi.py:107-120 | the text of `__val2BrCode`; `BrCode.Val2BrCodeDecodes` and `BrCode.Val2BrCodeTooLarge` state what it decodes to |
| BrCode.Val2BrLen | custom_components/climate/broadlink-mhi.py:122-129 | the text of `__val2BrLen`; `BrCode.Val2BrLenDecodes` states that it decodes to the little-endian pair |
| BrCode.Val2BrCodeDecodes | custom_components/climate/broadlink-mhi.py:107-120 | up to 0xFFFF the text decodes to one byte below 256, else to 00 (dropped when noZero) and the value low byte first |
| BrCode.Val2BrLenDecodes | custom_components/climate/broadlink-mhi.py:122-129 | up to 0xFFFF the text decodes to the value low byte first |
| BrCode.WordDecodes | custom_components/climate/broadlink-mhi.py:127-128 | the swapped digit pairs of `"%0.4x"` decode to low byte, high byte |
| BrCode.FormatWord | custom_components/climate/broadlink-mhi.py:115-117 | the two slices are the low byte's and the high byte's digits |
| BrCode.Le16Value | custom_components/climate/broadlink-mhi.py:127-128 | the two length bytes read back as the length |
| BrCode.DurationRoundTrip | custom_components/climate/broadlink-mhi.py:110-119 | the reader that inverts `__val2BrCode`'s 00/low/high layout gets the duration back; one byte exactly below 256 |
| BrCode.Val2BrCodeTooLarge | custom_components/climate/broadlink-mhi.py:115-119 | from 0x10000 to 0xFFFFF the slicing drops the last digit: the text is that of v / 16 and decodes to the bytes of v / 16, which the reader that inverts the 00/low/high layout takes for that smaller duration |
| BrCode.Val2BrCodeTooLargeExample | custom_components/climate/broadlink-mhi.py:115-119 | 0x12345 becomes "003412", which decodes to 00 34 12 and reads as 0x1234 |
| Codes.TempCode | custom_components/climate/broadlink-mhi.py:375-379 | the bitwise temperature formula as written; `Codes.TempCodeValue` and `Codes.TempCodeShape` state its values |
| Codes.ComplementNibble | custom_components/climate/broadlink-mhi.py:377 | `(~(k << 4)) & 0xF0` is 16 * (15 - k) for a nibble k |
| Codes.TempCodeValue | custom_components/climate/broadlink-mhi.py:375-379 | the code is (32 - t) * 16 for 18..30 and 0x80 (the code of 24) otherwise |
| Codes.TempCodeShape | custom_components/climate/broadlink-mhi.py:375-379 | high nibble only, 0xE0 at 18 to 0x20 at 30, strictly falling, and every out-of-range value coded as 24 |
| Payload.Built | custom_components/climate/broadlink-mhi.py:134-139 | the list after one build, 11 entries; `Payload.BuiltKeepsPrefix`, `BuiltChecksums`, `BuiltGainsBits`, `BuiltIdempotent` and `BuiltPayload` state what it keeps and adds |
| Payload.Bytes | custom_components/climate/broadlink-mhi.py:146 | the bytes the entries stand for on the wire: each entry's low byte, in order |
| Payload.BuiltKeepsPrefix | custom_components/climate/broadlink-mhi.py:134-139 | entries 0..4 are never written, so a list that starts with 52 AE C3 26 D9 keeps that prefix |
| Payload.BuiltChecksums | custom_components/climate/broadlink-mhi.py:134-139 | payload bytes 6, 8 and 10 are 255 minus bytes 5, 7 and 9 |
| Payload.BuiltGainsBits | custom_components/climate/broadlink-mhi.py:134-139 | a build only adds bits to entries 5, 7 and 9 |
| Payload.BuiltIdempotent | custom_components/climate/broadlink-mhi.py:134-139 | a second build with the same settings leaves the list as the first did |
| Payload.BuiltPayload | custom_components/climate/broadlink-mhi.py:134-139 | when the or-ed entries fit a byte the payload is the prefix, then each entry followed by its complement |
| Payload.OffBitSticks | custom_components/climate/broadlink-mhi.py:138 | once the power-off bit is in entry 9 every later build keeps it |
| Payload.FreshPowerBit | custom_components/climate/broadlink-mhi.py:138 | over the initial list, entry 9 has the off bit exactly when the power is Off |
| Payload.FreshOffPayload | custom_components/climate/broadlink-mhi.py:82 | power off, the other settings at their defaults and the temperature code of 24 (0x80), over the initial list, give FF 00 FF 00 8F 70 after the prefix |
| Payload.BytesSnoc | custom_components/climate/broadlink-mhi.py:142 | the payload of a list one entry longer ends in that entry's byte |
| Payload.DefaultBits5 | custom_components/climate/broadlink-mhi.py:134 | the default settings or 0xEE into entry 5 |
| Payload.DefaultBits7 | custom_components/climate/broadlink-mhi.py:136 | the default settings or 0xF8 into entry 7 |
| Payload.DefaultBits9 | custom_components/climate/broadlink-mhi.py:138 | the default settings with temperature code 0x80 or 0x8F into entry 9 |
| Frame.PulseUnits | custom_components/climate/broadlink-mhi.py:147-161 | the pulses on the wire, defined from the truncated data timings and the rounded-up header timings, are 13, 39, 13 and 6A 35 |
| Frame.BitsText | custom_components/climate/broadlink-mhi.py:143-150 | the inner loop's text for the low n bits; `Frame.BitsTextDecodes` states what it decodes to |
| Frame.DataText | custom_components/climate/broadlink-mhi.py:141-151 | the outer loop's text for the list; `Frame.DataTextDecodes` states what it decodes to |
| Frame.CmdText | custom_components/climate/broadlink-mhi.py:155-171 | `__StrHexCode` for the list; `Frame.CmdTextDecodes` states that it decodes to the frame of the payload |
| Frame.PairTextDecodes | custom_components/climate/broadlink-mhi.py:147-149 | the text for one bit decodes to 13 then 39 (set) or 13 (clear) |
| Frame.HeaderTextDecodes | custom_components/climate/broadlink-mhi.py:160-161 | the header text is four digits decoding to 6A 35 |
| Frame.BitsTextDecodes | custom_components/climate/broadlink-mhi.py:143-150 | the inner loop's text is 4 digits per bit and decodes to the pairs of the bits, lowest first |
| Frame.PulseBitsLow8 | custom_components/climate/broadlink-mhi.py:146 | the eight tested bits are those of the entry's low byte, so a negative entry sends its low byte |
| Frame.DataTextDecodes | custom_components/climate/broadlink-mhi.py:141-151 | the outer loop's text is 32 digits per entry and decodes to 16 pulses per payload byte |
| Frame.DataCodeDecodes | custom_components/climate/broadlink-mhi.py:163 | the header and data text is 356 digits and decodes to the header and data pulses |
| Frame.StartDecodes | custom_components/climate/broadlink-mhi.py:157-166 | the first text decodes to 26 00 B6 00, the length 182 |
| Frame.TrailerDecodes | custom_components/climate/broadlink-mhi.py:169 | "0d05" decodes to 0D 05 |
| Frame.CmdTextDecodes | custom_components/climate/broadlink-mhi.py:155-181 | the command text decodes to the frame of the payload, and the blank removal leaves it unchanged |
| Frame.EnvelopeLayout | custom_components/climate/broadlink-mhi.py:155-169 | the frame is 184 bytes: 26 00 B6 00, 6A 35, 176 data pulses, 0D 05 |
| Frame.EnvelopeParts | custom_components/climate/broadlink-mhi.py:155-169 | where code, length, header, data and trailer sit in a frame of any payload |
| Frame.EnvelopePulse | custom_components/climate/broadlink-mhi.py:142-151 | pair j of byte k sits at 6 + 16k + 2j: 13, then 39 or 13 by bit j |
| Frame.ReadPulseBits | custom_components/climate/broadlink-mhi.py:145-150 | reading the pairs of n bits gives the low n bits back |
| Frame.ReadBytePulses | custom_components/climate/broadlink-mhi.py:142-151 | a byte's sixteen pulses read back as that byte |
| Frame.ReadDataPulses | custom_components/climate/broadlink-mhi.py:142-151 | the data pulses read back as the payload |
| Frame.ReadFrameRoundTrip | custom_components/climate/broadlink-mhi.py:155-169 | the reader that inverts the layout `__build_cmd` writes recovers the payload, checking code, length, header and trailer |
| Hvac.HvacCmd.constructor | custom_components/climate/broadlink-mhi.py:90-105 | a new command is Off, Auto, fan Auto, both swings Stop, clean Off, temperature 24, over the shared list |
| Hvac.HvacCmd.OrSettings | custom_components/climate/broadlink-mhi.py:134-139 | the shared list becomes the build of its old contents with the current settings |
| Hvac.HvacCmd.BuildCmd | custom_components/climate/broadlink-mhi.py:131-171 | the list is built and `__StrHexCode` is the command text for it, which decodes to the frame of its payload |
| Hvac.HvacCmd.GetCmd | custom_components/climate/broadlink-mhi.py:178-184 | the list is built, `__StrHexCode` is its command text, and the result is the frame of the new payload: decoding never fails |
| Hvac.CommandText | custom_components/climate/broadlink-mhi.py:155-169 | the text assembled is the command text for the list |
| Hvac.HexCodeText | custom_components/climate/broadlink-mhi.py:141-151 | the outer loop yields the data text of the list |
| Hvac.PulseText | custom_components/climate/broadlink-mhi.py:143-150 | the inner loop yields the text of the low eight bits |
| Hvac.NewSharedData | custom_components/climate/broadlink-mhi.py:82 | the list as the class body creates it |
| Climate.PowerCode | custom_components/climate/broadlink-mhi.py:332-335 | the power code of the lower-cased operation; `Climate.MapPower` states it |
| Climate.ModeCode | custom_components/climate/broadlink-mhi.py:345-356 | the mode code of the lower-cased operation; `Climate.MapMode` states it |
| Climate.FanCode | custom_components/climate/broadlink-mhi.py:360-373 | the fan code, or the `AttributeError` of `HVAC_Fan.Med`; `Climate.MapFan` and `Climate.MapRaisesOnlyForMed` state it |
| Climate.VSwingCode | custom_components/climate/broadlink-mhi.py:381-395 | the vertical swing code; `Climate.MapSwing` states it |
| Climate.MapSettings | custom_components/climate/broadlink-mhi.py:330-395 | the settings `send_ir` gives a fresh command, or the error it raises; `Climate.MapTemperature`, `MapIgnoresCase` and the lemmas above state them |
| Climate.Trunc | custom_components/climate/broadlink-mhi.py:375 | Python `int()` of the target; `Climate.TruncNonNegative` and `Climate.TruncNegative` state its rounding |
| Climate.Send | custom_components/climate/broadlink-mhi.py:397-400 | one `send_ir` over the shared list: the new list and the frame sent, or the error; `Climate.SendFrame`, `SendTwice` and `OffIsSticky` state its properties |
| Climate.Lower | custom_components/climate/broadlink-mhi.py:330 | lower-casing keeps the length and maps each character |
| Climate.LowerIdempotent | custom_components/climate/broadlink-mhi.py:330 | lower-casing twice is lower-casing once |
| Climate.MapIgnoresCase | custom_components/climate/broadlink-mhi.py:330-395 | the settings do not depend on the letter case of the three strings |
| Climate.MapRaisesOnlyForMed | custom_components/climate/broadlink-mhi.py:366-367 | the mapping raises `AttributeError` for `Med` exactly when the fan mode is 'med' |
| Climate.MapPower | custom_components/climate/broadlink-mhi.py:332-335 | power Off exactly for 'off', On otherwise; 'off' keeps mode Auto |
| Climate.MapMode | custom_components/climate/broadlink-mhi.py:345-356 | cool, heat, dry and fan_only pick their modes; anything else, 'idle' included, gives Auto |
| Climate.MapFan | custom_components/climate/broadlink-mhi.py:360-373 | low, high, hipower and econo pick their codes; anything else gives Auto; Mid never appears |
| Climate.MapSwing | custom_components/climate/broadlink-mhi.py:381-395 | the six swing names pick their codes; 'manual' and anything else give Stop |
| Climate.MapTemperature | custom_components/climate/broadlink-mhi.py:345-379 | the temperature sent is the code of `int(target)` for every operation; clean Off, horizontal swing Stop |
| Climate.TruncNonNegative | custom_components/climate/broadlink-mhi.py:375 | `int()` of a non-negative target rounds down |
| Climate.TruncNegative | custom_components/climate/broadlink-mhi.py:375 | `int()` of a negative target rounds toward zero |
| Climate.SetUp | custom_components/climate/broadlink-mhi.py:328-395 | the fresh command gets the mapped settings, or the call raises what the mapping raises |
| Climate.SetUpOperation | custom_components/climate/broadlink-mhi.py:330-356 | power and mode from the operation, with the temperatures 'auto' and 'fan_only' write |
| Climate.SetUpFan | custom_components/climate/broadlink-mhi.py:360-373 | the fan from its name; 'med' raises |
| Climate.SetUpTemperature | custom_components/climate/broadlink-mhi.py:375-379 | the temperature code of the integer target |
| Climate.SetUpSwing | custom_components/climate/broadlink-mhi.py:381-395 | the vertical swing from its name |
| Climate.MhiClimate.constructor | custom_components/climate/broadlink-mhi.py:288-311 | the entity's target, strings and idle configuration as given; reading 0 |
| Climate.MhiClimate.SendIr | custom_components/climate/broadlink-mhi.py:325-402 | the shared list and the events become what one send of the mapped settings gives, or nothing changes and the exception is returned |
| Climate.MhiClimate.SetTemperature | custom_components/climate/broadlink-mhi.py:513-523 | with a temperature: store it, send when active, else switch to the idle default if set, then write the state; without one: nothing |
| Climate.MhiClimate.SetFanMode | custom_components/climate/broadlink-mhi.py:525-532 | store the fan, send unless off or idle, write the state unless the send raised |
| Climate.MhiClimate.SetOperationMode | custom_components/climate/broadlink-mhi.py:534-539 | store the operation, always send, write the state unless the send raised |
| Climate.MhiClimate.SetSwingMode | custom_components/climate/broadlink-mhi.py:541-545 | store the swing, always send, write the state unless the send raised |
| Climate.SendFrame | custom_components/climate/broadlink-mhi.py:397-400 | a send that does not raise keeps the prefix, complements the checksums and sends a frame that reads back as the payload |
| Climate.SendTwice | custom_components/climate/broadlink-mhi.py:397-400 | sending the same settings twice in a row sends the same frame, as a retry does |
| Climate.OffIsSticky | custom_components/climate/broadlink-mhi.py:138 | after any power-off frame over the shared list, every later frame has the off bit |
| Climate.FreshOffBit | custom_components/climate/broadlink-mhi.py:332-335 | the first frame over a fresh list has the off bit exactly for the operation 'off' |
| Climate.DefaultFirstPayload | custom_components/climate/broadlink-mhi.py:215-222 | the default configuration ('off', 'auto', 'Manual', 24) maps to a fresh command's settings with the code of 24, and its first payload over a fresh list is 52 AE C3 26 D9 FF 00 FF 00 8F 70 |

## Left out

- How the Broadlink device decodes a frame is not modelled, in particular
  the byte order it expects for a duration after the 00 marker.
  `BrCode.ReadDuration` and `Frame.ReadFrame` are the readers that invert
  what the code writes (00, then low byte, then high byte), not the device.
- Sending to the Broadlink device, `auth()`, socket time-outs and the retry
  loop of `send_ir` (lines 397-407) are not modelled. A send is recorded as a
  `Sent` event and always succeeds. A retry rebuilds the same frame
  (`Climate.SendTwice`).
- `schedule_update_ha_state` is recorded as a `StateWritten` event. Home
  Assistant's state machine, `async_setup_platform`, `async_added_to_hass`
  and the read-only properties are not modelled.
- The temperature sensor callbacks (`_async_temp_sensor_changed`,
  `_async_update_current_temp`, `represents_float`) are not modelled. The
  reading is an integer field. It matters only in the `auto` assignment,
  which the temperature code overwrites.
- Floats are not modelled. The target temperature is an exact fraction and
  `int()` truncates it toward zero. BDCF is the exact fraction 269/8192.
- Climate.Lower: it lower-cases ASCII letters only, not the full Unicode
  case mapping of Python's `str.lower()`.
- `print_cmd`, the `_log` flag and `_LOGGER` are left out because they only
  print or log.
- `get_cmd`'s `encode('ascii')` is left out. The text is all hex digits
  (`Hex.FormatIsHex`), so encoding cannot fail.
- The configuration parameters of `__init__` that the encoder never reads
  are left out: name, limits, step, unit, lists, sensor id and device.
- Climate.MhiClimate.SendIr: it returns the exception as a result; it does
  not unwind the caller.
