/**
 * ResponseTime: one (start, stop) sample in nanoseconds and its unit
 * conversions.  Timestamps are unbounded integers; the conversions are exact
 * over `real`.
 */
module ResponseTimes {

  const NANOS_PER_MS: real := 1000000.0
  const NANOS_PER_SEC: real := 1000000000.0

  /** The constructor stores both timestamps unchanged in the public fields. */
  datatype ResponseTime = ResponseTime(startTimeNs: int, stopTimeNs: int)

  /** getStartTimeInMs: the start stamp converted from nanoseconds to milliseconds. */
  function StartTimeInMs(rt: ResponseTime): (ms: real)
    ensures ms * NANOS_PER_MS == rt.startTimeNs as real
  {
    rt.startTimeNs as real / NANOS_PER_MS
  }

  /** getResponseTimeInSec: the elapsed nanoseconds in seconds. */
  function ResponseTimeInSec(rt: ResponseTime): (sec: real)
    ensures sec * NANOS_PER_SEC == (rt.stopTimeNs - rt.startTimeNs) as real
  {
    (rt.stopTimeNs - rt.startTimeNs) as real / NANOS_PER_SEC
  }

  /** getResponseTimeInMs: the elapsed nanoseconds in milliseconds. */
  function ResponseTimeInMs(rt: ResponseTime): (ms: real)
    ensures ms * NANOS_PER_MS == (rt.stopTimeNs - rt.startTimeNs) as real
  {
    (rt.stopTimeNs - rt.startTimeNs) as real / NANOS_PER_MS
  }

  /** The two elapsed-time conversions agree: milliseconds are a thousand times the seconds. */
  lemma MsIsThousandTimesSec(rt: ResponseTime)
    ensures ResponseTimeInMs(rt) == 1000.0 * ResponseTimeInSec(rt)
  {
    var d := (rt.stopTimeNs - rt.startTimeNs) as real;
    assert ResponseTimeInMs(rt) == d / NANOS_PER_MS;
    assert ResponseTimeInSec(rt) == d / NANOS_PER_SEC;
  }

  /** There is no ordering check: the response time is negative exactly when stop precedes start. */
  lemma NegativeIffReversed(rt: ResponseTime)
    ensures ResponseTimeInMs(rt) < 0.0 <==> rt.stopTimeNs < rt.startTimeNs
    ensures ResponseTimeInSec(rt) < 0.0 <==> rt.stopTimeNs < rt.startTimeNs
  {
  }

  /** The sample (1, 2) of ResponseTimeTest: 1/10^6 ms, 1/10^9 s, start at 1/10^6 ms. */
  lemma UnitSample()
    ensures ResponseTimeInMs(ResponseTime(1, 2)) == 1.0 / 1000000.0
    ensures ResponseTimeInSec(ResponseTime(1, 2)) == 1.0 / 1000000000.0
    ensures StartTimeInMs(ResponseTime(1, 2)) == 1.0 / 1000000.0
  {
  }
}
