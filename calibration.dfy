/** The calibration constants the decoder imports (module `constants`, generated from a data file
    that is not part of this model), the raw-to-physical transform `untruncate`, and the
    floating-point unit conversions, which are kept as uninterpreted terms over exact integers. */
module Calibration {
  import opened Bits

  /** The signal identifiers the decoder passes to the slope and intercept lookups. */
  datatype Signal =
    | LRef | LSns | LTemp | PanelRef | LfVolt | Accel | Gyro | Mag | RadTemp | ImuTemp | IrAmb
    | LedTempFlash | LfTemp | LfSnsFlash | LfOsnsFlash | LedSns

  /** The constants the decoder reads: the data-section start, the batch count of each message
      type, the error time-bucket size, the slope and intercept of each signal, and the name
      tables of error codes and error locations. */
  datatype Table = Table(
    dataSectionStart: nat,
    idleBatches: nat,
    attitudeBatches: nat,
    flashBurstBatches: nat,
    flashCmpBatches: nat,
    lowPowerBatches: nat,
    errorTimeBucketSize: int,
    lineM: Signal -> int,
    lineB: Signal -> int,
    ecodeName: int -> string,
    elocName: int -> string)

  /** No slope is zero, so `untruncate` never divides by zero. */
  predicate SlopesNonzero(t: Table)
  {
    forall s: Signal :: t.lineM(s) != 0
  }

  /** Python 2 integer `/`: the quotient rounded towards minus infinity, for either sign of d. */
  function FloorDiv(a: int, d: int): int
    requires d != 0
  {
    if d > 0 then a / d else (-a) / (-d)
  }

  /** The floor quotient q is the one with q*d within one divisor of a, on a's side. */
  lemma FloorDivBounds(a: int, d: int)
    requires d != 0
    ensures var q := FloorDiv(a, d);
      (d > 0 ==> d * q <= a < d * q + d) && (d < 0 ==> d * q >= a > d * q + d)
  {
    if d < 0 {
      var q := (-a) / (-d);
      assert (-d) * q <= -a < (-d) * q + (-d);
    }
  }

  /** untruncate: `(val << 8) / m - b` with the signal's slope m and intercept b; the shift
      comes first, then the flooring division, then the subtraction. It undoes the slope and
      intercept up to the rounding of the division: `m * (r + b)` lies within one slope of the
      shifted reading `val * 256`, on its side. */
  function Untruncate(val: int, sig: Signal, t: Table): (r: int)
    requires t.lineM(sig) != 0
    ensures var m, x := t.lineM(sig), val * 256;
      (m > 0 ==> m * (r + t.lineB(sig)) <= x < m * (r + t.lineB(sig)) + m)
      && (m < 0 ==> m * (r + t.lineB(sig)) >= x > m * (r + t.lineB(sig)) + m)
  {
    assert ShiftLeft(val, 8) == val * 256 by { assert Pow2(8) == 256; }
    FloorDivBounds(val * 256, t.lineM(sig));
    FloorDiv(ShiftLeft(val, 8), t.lineM(sig)) - t.lineB(sig)
  }

  /** `(v - 130) * 5580 / 1000`: the panel reference reading, in Python 2 integer arithmetic. */
  function PanelRefReading(v: int): (r: int)
    ensures 1000 * r <= (v - 130) * 5580 < 1000 * r + 1000
  {
    FloorDiv((v - 130) * 5580, 1000)
  }

  /** `(v - 50) * 2717 / 1000`: the battery reference reading, in Python 2 integer arithmetic. */
  function LRefReading(v: int): (r: int)
    ensures 1000 * r <= (v - 50) * 2717 < 1000 * r + 1000
  {
    FloorDiv((v - 50) * 2717, 1000)
  }

  /** `v / 10`: the radio temperature reading, in Python 2 integer arithmetic. */
  function RadTempReading(v: int): (r: int)
    ensures 10 * r <= v < 10 * r + 10
  {
    FloorDiv(v, 10)
  }

  /** With an integer intercept, subtracting before the division would give the same value:
      the order changes nothing for integer coefficients. */
  lemma UntruncateSubtractFirst(val: int, sig: Signal, t: Table)
    requires t.lineM(sig) != 0
    ensures Untruncate(val, sig, t) == FloorDiv(val * 256 - t.lineB(sig) * t.lineM(sig), t.lineM(sig))
  {
    var m, b, x := t.lineM(sig), t.lineB(sig), val * 256;
    var q := FloorDiv(x, m);
    assert ShiftLeft(val, 8) == x by { assert Pow2(8) == 256; }
    FloorDivBounds(x, m);
    assert m * (q - b) == m * q - b * m;
    if m > 0 {
      FloorDivUnique(x - b * m, m, q - b);
    } else {
      FloorDivUnique(x - b * m, m, q - b);
    }
  }

  /** The floor quotient is the only q with q*d within one divisor of a. */
  lemma FloorDivUnique(a: int, d: int, q: int)
    requires d != 0
    requires d > 0 ==> d * q <= a < d * q + d
    requires d < 0 ==> d * q >= a > d * q + d
    ensures FloorDiv(a, d) == q
  {
    var q' := FloorDiv(a, d);
    FloorDivBounds(a, d);
    if q' > q {
      assert d * q' - d * q == d * (q' - q);
      if d > 0 { MulAtLeast(d, q' - q); } else { MulAtLeast(-d, q' - q); }
    } else if q' < q {
      assert d * q - d * q' == d * (q - q');
      if d > 0 { MulAtLeast(d, q - q'); } else { MulAtLeast(-d, q - q'); }
    }
  }

  lemma MulAtLeast(d: nat, k: int)
    requires k >= 1
    ensures d * k >= d
  {
    assert d * k == d + d * (k - 1);
  }

  /** The floating-point formulas of the decoder (`round(raw*0.6, 2)`, `round(raw/16384., 2)`, ...).
      They are not evaluated here: a reading records which formula applies to which exact integer. */
  datatype Conversion =
    | MagRawToUT      // mag_raw_to_uT
    | AccRawToG       // acc_raw_to_g
    | GyroRawToDps    // gyro_raw_to_dps
    | IrRawToC        // ir_raw_to_C
    | Ad590MvToC      // ad590_mV_to_C
    | LSnsMvToMa      // l_sns_mV_to_mA
    | LfbSnsMvToMa    // lfbsns_mV_to_mA
    | LfboSnsMvToMa   // lfbosns_mV_to_mA
    | LedSnsMvToMa    // led_sns_mV_to_mA
    | ImuTempToC      // `x / 333.87 + 21`

  datatype FloatTerm = Converted(conv: Conversion, arg: int) | Negated(term: FloatTerm)
}
