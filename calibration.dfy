/**
 * Calibration arithmetic of one wake cycle, on the converter's integer count.
 *
 * The firmware divides the count by `1024.f`, multiplies by 100 (moisture) or
 * 5 (battery) in single precision, and hands the moisture value to Arduino's
 * integer `map`.  For counts below 1024 each of those float steps is exact
 * (the products have at most 17 significant bits and the divisor is a power of
 * two), so exact reals describe them; the float-to-`long` conversion at the
 * call of `map` truncates toward zero and is written out as `Trunc`.
 */
module Calibration {
  /** A sample of the 10-bit analog converter. */
  type AdcCount = x: int | 0 <= x < 1024

  /** The divisor applied to every sample. */
  const AdcFullScale: real := 1024.0
  /** Raw fraction at which the soil reads as dry (0 %). */
  const MoistureMax: real := 0.80
  /** Raw fraction at which the soil reads as wet (100 %). */
  const MoistureMin: real := 0.30
  /** Voltage-divider factor applied to the battery fraction. */
  const BatteryScale: real := 5.0

  function Abs(x: int): nat {
    if x < 0 then -x else x
  }

  /** Conversion of a floating value to an integer type: truncation toward zero. */
  function Trunc(x: real): (n: int)
    ensures Abs(n) as real <= (if x < 0.0 then -x else x) < Abs(n) as real + 1.0
    ensures n != 0 ==> ((n > 0) == (x > 0.0))
  {
    if x >= 0.0 then x.Floor else -((-x).Floor)
  }

  /**
   * Integer division of C and C++: the quotient is truncated toward zero, so the
   * remainder a - q * b is smaller than the divisor and never has the opposite
   * sign of the dividend.
   */
  function CDiv(a: int, b: int): (q: int)
    requires b != 0
    ensures Abs(a - q * b) < Abs(b)
    ensures a >= 0 ==> a - q * b >= 0
    ensures a <= 0 ==> a - q * b <= 0
  {
    var n, d := Abs(a), Abs(b);
    EuclidRemainder(n, d);
    var k := n / d;
    if (a >= 0) == (b > 0) then
      SameSignProduct(a, b, k);
      k
    else
      OppositeSignProduct(a, b, k);
      -k
  }

  /** Division of naturals leaves a remainder below the divisor. */
  lemma EuclidRemainder(n: nat, d: nat)
    requires d > 0
    ensures 0 <= n - (n / d) * d < d
  {
  }

  lemma SameSignProduct(a: int, b: int, k: int)
    requires b != 0 && (a >= 0) == (b > 0)
    ensures a - k * b == (if a >= 0 then Abs(a) - k * Abs(b) else -(Abs(a) - k * Abs(b)))
  {
    if b < 0 {
      assert k * b == -(k * -b);
    }
  }

  lemma OppositeSignProduct(a: int, b: int, k: int)
    requires b != 0 && (a >= 0) != (b > 0)
    ensures a - -k * b == (if a >= 0 then Abs(a) - k * Abs(b) else -(Abs(a) - k * Abs(b)))
  {
    if b < 0 {
      assert -k * b == k * -b;
    } else {
      assert -k * b == -(k * b);
    }
  }

  /**
   * Arduino's `map`, in the classic formula without rounding:
   * (x - inMin) * (outMax - outMin) / (inMax - inMin) + outMin.
   */
  function ArduinoMap(x: int, inMin: int, inMax: int, outMin: int, outMax: int): int
    requires inMax != inMin
  {
    CDiv((x - inMin) * (outMax - outMin), inMax - inMin) + outMin
  }

  /** `analogRead(ADC_PIN) / 1024.f`. */
  function RawFraction(adc: AdcCount): (f: real)
    ensures 0.0 <= f < 1.0
  {
    adc as real / AdcFullScale
  }

  /** `battery_raw * 5`: the reported battery voltage. */
  function BatteryVolts(adc: AdcCount): (v: real)
    ensures v * 1024.0 == (adc * 5) as real
    ensures 0.0 <= v < 5.0
  {
    RawFraction(adc) * BatteryScale
  }

  /** `(long)(moisture_raw * 100)`: the first argument given to `map`. */
  function ScaledMoisture(adc: AdcCount): (x: int)
    ensures x == (adc * 25) / 256
    ensures 0 <= x <= 99
  {
    var r := RawFraction(adc) * 100.0;
    assert r * 256.0 == (adc * 25) as real;
    var q := (adc * 25) / 256;
    assert q * 256 <= adc * 25 < (q + 1) * 256;
    assert q as real <= r < (q + 1) as real;
    Trunc(r)
  }

  /** `(long)(moisture_max * 100)`, the dry calibration point given to `map`. */
  function DryPoint(): (r: int)
    ensures r == 80
  {
    assert MoistureMax * 100.0 == 80.0;
    Trunc(MoistureMax * 100.0)
  }

  /** `(long)(moisture_min * 100)`, the wet calibration point given to `map`. */
  function WetPoint(): (r: int)
    ensures r == 30
  {
    assert MoistureMin * 100.0 == 30.0;
    Trunc(MoistureMin * 100.0)
  }

  /**
   * `map(moisture_raw * 100, moisture_max * 100, moisture_min * 100, 0, 100)`:
   * the straight line 160 - 2x in the scaled sample x, which over the whole
   * converter range stays in [-38, 160].
   */
  function MoisturePercent(adc: AdcCount): (r: int)
    ensures r == 160 - 2 * ScaledMoisture(adc)
    ensures -38 <= r <= 160
  {
    MapCalibrationLine(ScaledMoisture(adc));
    ArduinoMap(ScaledMoisture(adc), DryPoint(), WetPoint(), 0, 100)
  }

  /** On the line through (80, 0) and (30, 100) `map` divides exactly: it is 160 - 2x for every x. */
  lemma MapCalibrationLine(x: int)
    ensures ArduinoMap(x, 80, 30, 0, 100) == 160 - 2 * x
  {
    var q := CDiv((x - 80) * 100, 30 - 80);
    assert (x - 80) * 100 - q * (30 - 80) == 50 * (2 * (x - 80) + q);
  }

  /** 0 % exactly at the dry point, 100 % exactly at the wet point. */
  lemma MoistureAtCalibrationPoints(adc: AdcCount)
    ensures MoisturePercent(adc) == 0 <==> ScaledMoisture(adc) == 80
    ensures MoisturePercent(adc) == 100 <==> ScaledMoisture(adc) == 30
  {
  }

  /**
   * The result is not clamped: drier than the dry point gives a negative value,
   * wetter than the wet point a value above 100.
   */
  lemma MoistureNotClamped(adc: AdcCount)
    ensures MoisturePercent(adc) < 0 <==> ScaledMoisture(adc) > 80
    ensures MoisturePercent(adc) > 100 <==> ScaledMoisture(adc) < 30
    ensures 0 <= MoisturePercent(adc) <= 100 <==> 30 <= ScaledMoisture(adc) <= 80
  {
  }

  /** A larger count (a drier probe) never gives a larger percentage. */
  lemma MoistureAntitone(a: AdcCount, b: AdcCount)
    requires a <= b
    ensures MoisturePercent(b) <= MoisturePercent(a)
  {
    DivMonotone(a * 25, b * 25);
  }

  lemma DivMonotone(x: nat, y: nat)
    requires x <= y
    ensures x / 256 <= y / 256
  {
    var qx, qy := x / 256, y / 256;
    assert qx * 256 <= x <= y < (qy + 1) * 256;
  }

  /** Both ends of [-38, 160] occur: at the smallest and at the largest count. */
  lemma MoistureExtremes()
    ensures MoisturePercent(0) == 160 && MoisturePercent(1023) == -38
  {
  }
}
