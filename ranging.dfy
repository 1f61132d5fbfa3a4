/**
 * The ultrasonic sanitiser `get_distance_cm` shared, word for word, by the
 * zone state machine and the basic three-band controller: a missing or
 * non-positive reading is read as "nothing in range" (fail open).
 */
module Ranging {
  import opened Wrappers

  /** The distance reported when the sensor gives no usable echo. */
  const NO_ECHO_CM: real := 999.0

  /** `get_distance_cm`: `raw` is what `px.get_distance()` returned (`None` when it returned nothing). */
  function SanitizeDistance(raw: Option<real>): (d: real)
    ensures d > 0.0
    ensures raw.Some? && raw.value > 0.0 ==> d == raw.value
    ensures raw.None? || raw.value <= 0.0 ==> d == NO_ECHO_CM
  {
    if raw.None? || raw.value <= 0.0 then NO_ECHO_CM else raw.value
  }

}
