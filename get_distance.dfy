/**
 * Conversion of an ultrasonic echo time into a distance in centimetres
 * (getDistanceCM).  The timing callable is replaced by the one duration it
 * returns; the arithmetic is exact (over `real`), not IEEE-754 `float`.
 */
module GetDistance {

  /** Width of the C `long` on the Arduino target (32 bits). */
  const LONG_MIN: int := -0x8000_0000
  const LONG_MAX: int := 0x7FFF_FFFF
  const ULONG_MODULUS: int := 0x1_0000_0000

  /** A value of the C type `long`. */
  type Long = x: int | LONG_MIN <= x <= LONG_MAX

  /** Speed of sound, cm per microsecond: exactly 343/10000. */
  const SOUND_SPEED_CM_PER_US: real := 343.0 / 10000.0

  /** Echo durations at or above this ceiling (microseconds) are timeouts. */
  const ECHO_CEILING_US: int := 30000

  /** The value returned for a reading that cannot be measured. */
  const SENTINEL: real := -1.0

  /** Largest distance the ceiling admits: 30000 * 0.0343 / 2. */
  const MAX_RANGE_CM: real := 514.5

  /**
   * The usual arithmetic conversion of a `long` to `unsigned long`, applied
   * when `duration` is compared with the unsigned literal `30000UL`.
   */
  function ToUnsignedLong(x: Long): (u: int)
    ensures 0 <= u < ULONG_MODULUS
    ensures (u - x) % ULONG_MODULUS == 0
    ensures x >= 0 ==> u == x
    ensures x < 0 ==> u >= ULONG_MODULUS / 2
  {
    if x < 0 then x + ULONG_MODULUS else x
  }

  /**
   * getDistanceCM on the duration the timing source returned: the sentinel
   * exactly when the reading is zero, at least the ceiling, or negative
   * (negative values become huge once converted to unsigned), and otherwise
   * a distance strictly inside (0, 514.5) obtained by the conversion formula.
   */
  function DistanceCM(duration: Long): (r: real)
    ensures r == SENTINEL <==> duration <= 0 || duration >= ECHO_CEILING_US
    ensures r != SENTINEL ==> 0.0 < r < MAX_RANGE_CM
    ensures r != SENTINEL ==> r * 2.0 == duration as real * SOUND_SPEED_CM_PER_US
  {
    if duration == 0 || ToUnsignedLong(duration) >= ECHO_CEILING_US then
      SENTINEL
    else
      duration as real * SOUND_SPEED_CM_PER_US / 2.0
  }

  /** On valid readings the conversion is strictly increasing. */
  lemma DistanceStrictlyIncreasing(d1: Long, d2: Long)
    requires 0 < d1 < d2 < ECHO_CEILING_US
    ensures SENTINEL < DistanceCM(d1) < DistanceCM(d2)
  {
  }

  /** A valid distance determines the duration it came from. */
  lemma DistanceDeterminesDuration(d1: Long, d2: Long)
    requires DistanceCM(d1) != SENTINEL
    requires DistanceCM(d1) == DistanceCM(d2)
    ensures d1 == d2
  {
    if d1 < d2 {
      DistanceStrictlyIncreasing(d1, d2);
    } else if d2 < d1 {
      DistanceStrictlyIncreasing(d2, d1);
    }
  }

  /** The echo of 10000 microseconds is 171.5 cm away. */
  lemma TenThousandMicroseconds()
    ensures DistanceCM(10000) == 171.5
  {
  }
}
