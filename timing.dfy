/** The Mitsubishi Heavy IR timings (`HVAC_CMD.__IR_SPEC`, in microseconds)
    and their conversion to Broadlink duration units by the factor
    BDCF = 269/8192, which is exact in binary floating point. */
module Timing {

  const HDR_MARK: nat := 3200
  const HDR_SPACE: nat := 1600
  const BIT_MARK: nat := 400
  const ONE_SPACE: nat := 1200
  const ZERO_SPACE: nat := 400

  const BDCF_NUM: nat := 269
  const BDCF_DEN: nat := 8192

  /** Python `int(n / d)` for n, d > 0: the largest integer not above n/d. */
  function Floor(n: nat, d: nat): (r: nat)
    requires d > 0
    ensures r * d <= n < r * d + d
  {
    n / d
  }

  /** Python `int(math.ceil(n / d))`: the smallest integer not below n/d. */
  function Ceil(n: nat, d: nat): (r: nat)
    requires d > 0
    ensures n <= r * d < n + d
  {
    (n + d - 1) / d
  }

  /** A duration in microseconds scaled to Broadlink units and truncated, as
      the data-bit pulses are (`int(x * BDCF)`). */
  function TruncUnits(micros: nat): nat {
    Floor(micros * BDCF_NUM, BDCF_DEN)
  }

  /** A duration scaled and rounded up, as `__val2BrCode` does
      (`int(math.ceil(x * BDCF))`). */
  function CeilUnits(micros: nat): nat {
    Ceil(micros * BDCF_NUM, BDCF_DEN)
  }

  const MARK_UNITS: nat := TruncUnits(BIT_MARK)
  const ONE_UNITS: nat := TruncUnits(ONE_SPACE)
  const ZERO_UNITS: nat := TruncUnits(ZERO_SPACE)

  /** The unit values the encoder emits. The data pulses are truncated
      (400 us gives 13, where rounding up would give 14); only the header
      pulses are rounded up (106 and 53). */
  lemma UnitValues()
    ensures MARK_UNITS == 13 && ONE_UNITS == 39 && ZERO_UNITS == 13
    ensures CeilUnits(HDR_MARK) == 106 && CeilUnits(HDR_SPACE) == 53
    ensures CeilUnits(BIT_MARK) == 14 && MARK_UNITS < CeilUnits(BIT_MARK)
  {
  }
}
