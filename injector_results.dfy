/**
 * InjectorResults: the record one load injector keeps about its batch — the
 * injection method, the batch size, the batch's own start and stop stamps
 * (-1 while unset) and the response-time samples in completion order.
 */
module BatchResults {
  import opened Wrappers
  import opened ResponseTimes

  /** The value both timestamps hold until they are measured. */
  const UNSET: int := -1

  datatype MeasurementError = MeasurementException(message: string)

  /** Sum of the samples' response times in milliseconds, accumulated from the first sample on. */
  function SumMs(samples: seq<ResponseTime>): real
  {
    if samples == [] then 0.0
    else SumMs(samples[..|samples| - 1]) + ResponseTimeInMs(samples[|samples| - 1])
  }

  /** The mean response time in milliseconds; 0 when there are no samples. */
  function MeanMs(samples: seq<ResponseTime>): real
  {
    if |samples| == 0 then 0.0 else SumMs(samples) / |samples| as real
  }

  class InjectorResults {
    var injectionMethod: Option<string>
    var startTimeInNanos: int
    var stopTimeInNanos: int
    var totalClients: int
    var responseTimes: seq<ResponseTime>

    /** A fresh record: no method name, both stamps unset, no clients, no samples. */
    constructor()
      ensures injectionMethod == None
      ensures startTimeInNanos == UNSET && stopTimeInNanos == UNSET
      ensures totalClients == 0 && responseTimes == []
    {
      injectionMethod := None;
      startTimeInNanos := UNSET;
      stopTimeInNanos := UNSET;
      totalClients := 0;
      responseTimes := [];
    }

    /** measureStartTime, with the clock reading `nowNs` supplied by the caller. */
    method MeasureStartTime(nowNs: int)
      modifies this
      ensures startTimeInNanos == nowNs
      ensures stopTimeInNanos == old(stopTimeInNanos) && totalClients == old(totalClients)
      ensures injectionMethod == old(injectionMethod) && responseTimes == old(responseTimes)
    {
      startTimeInNanos := nowNs;
    }

    /** measureStopTime, with the clock reading `nowNs` supplied by the caller. */
    method MeasureStopTime(nowNs: int)
      modifies this
      ensures stopTimeInNanos == nowNs
      ensures startTimeInNanos == old(startTimeInNanos) && totalClients == old(totalClients)
      ensures injectionMethod == old(injectionMethod) && responseTimes == old(responseTimes)
    {
      stopTimeInNanos := nowNs;
    }

    /**
     * getDurationInSec: a MeasurementException unless both stamps are set
     * (greater than -1); otherwise the batch's lifetime in seconds.
     */
    function DurationInSec(): (r: Result<real, MeasurementError>)
      reads this
      ensures r.Success? <==> startTimeInNanos > UNSET && stopTimeInNanos > UNSET
      ensures r.Success? ==> r.value * NANOS_PER_SEC == (stopTimeInNanos - startTimeInNanos) as real
    {
      if stopTimeInNanos > UNSET && startTimeInNanos > UNSET then
        Success((stopTimeInNanos - startTimeInNanos) as real / NANOS_PER_SEC)
      else
        Failure(MeasurementException("One of the required measurement parameters are empty!"))
    }

    /** addResponseTime: appends one sample at the end and changes nothing else. */
    method AddResponseTime(startInNs: int, stopInNs: int)
      modifies this
      ensures responseTimes == old(responseTimes) + [ResponseTime(startInNs, stopInNs)]
      ensures startTimeInNanos == old(startTimeInNanos) && stopTimeInNanos == old(stopTimeInNanos)
      ensures totalClients == old(totalClients) && injectionMethod == old(injectionMethod)
    {
      responseTimes := responseTimes + [ResponseTime(startInNs, stopInNs)];
    }

    /** getAverageResponseTimeInMs: accumulates the samples, then divides unless the sum is 0. */
    method AverageResponseTimeInMs() returns (average: real)
      ensures average == MeanMs(responseTimes)
    {
      average := 0.0;
      var i := 0;
      while i < |responseTimes|
        invariant 0 <= i <= |responseTimes|
        invariant average == SumMs(responseTimes[..i])
      {
        assert responseTimes[..i + 1][..i] == responseTimes[..i];
        average := average + ResponseTimeInMs(responseTimes[i]);
        i := i + 1;
      }
      assert responseTimes[..i] == responseTimes;
      if average != 0.0 {
        average := average / |responseTimes| as real;
      }
    }

    /** setTotalClients: the matching getter returns `clients` afterwards. */
    method SetTotalClients(clients: int)
      modifies this
      ensures totalClients == clients
      ensures startTimeInNanos == old(startTimeInNanos) && stopTimeInNanos == old(stopTimeInNanos)
      ensures injectionMethod == old(injectionMethod) && responseTimes == old(responseTimes)
    {
      totalClients := clients;
    }

    /** setInjectionMethod: the matching getter returns `method` afterwards. */
    method SetInjectionMethod(name: Option<string>)
      modifies this
      ensures injectionMethod == name
      ensures startTimeInNanos == old(startTimeInNanos) && stopTimeInNanos == old(stopTimeInNanos)
      ensures totalClients == old(totalClients) && responseTimes == old(responseTimes)
    {
      injectionMethod := name;
    }
  }

  /** Without samples the average is 0 (InjectorResultsTest). */
  lemma MeanOfNoSamples()
    ensures MeanMs([]) == 0.0
  {
  }

  /** One sample (1, 2) averages to 1/10^6 ms (InjectorResultsTest). */
  lemma MeanOfUnitSample()
    ensures MeanMs([ResponseTime(1, 2)]) == 1.0 / 1000000.0
  {
    assert [ResponseTime(1, 2)][..0] == [];
  }

  /** The sum over samples is at least the count times a lower bound of every sample. */
  lemma {:induction false} SumAtLeast(samples: seq<ResponseTime>, lo: real)
    requires forall k :: 0 <= k < |samples| ==> lo <= ResponseTimeInMs(samples[k])
    ensures lo * |samples| as real <= SumMs(samples)
  {
    if samples != [] {
      var n := |samples|;
      var init := samples[..n - 1];
      assert forall k :: 0 <= k < |init| ==> init[k] == samples[k];
      SumAtLeast(init, lo);
      var m := (n - 1) as real;
      assert n as real == m + 1.0;
      assert lo * (m + 1.0) == lo * m + lo;
      assert SumMs(samples) == SumMs(init) + ResponseTimeInMs(samples[n - 1]);
    }
  }

  /** The sum over samples is at most the count times an upper bound of every sample. */
  lemma {:induction false} SumAtMost(samples: seq<ResponseTime>, hi: real)
    requires forall k :: 0 <= k < |samples| ==> ResponseTimeInMs(samples[k]) <= hi
    ensures SumMs(samples) <= hi * |samples| as real
  {
    if samples != [] {
      var n := |samples|;
      var init := samples[..n - 1];
      assert forall k :: 0 <= k < |init| ==> init[k] == samples[k];
      SumAtMost(init, hi);
      var m := (n - 1) as real;
      assert n as real == m + 1.0;
      assert hi * (m + 1.0) == hi * m + hi;
      assert SumMs(samples) == SumMs(init) + ResponseTimeInMs(samples[n - 1]);
    }
  }

  /** The average lies between the smallest and the largest sample. */
  lemma MeanBetweenBounds(samples: seq<ResponseTime>, lo: real, hi: real)
    requires |samples| > 0
    requires forall k :: 0 <= k < |samples| ==> lo <= ResponseTimeInMs(samples[k]) <= hi
    ensures lo <= MeanMs(samples) <= hi
  {
    SumAtLeast(samples, lo);
    SumAtMost(samples, hi);
    var n := |samples| as real;
    var sum := SumMs(samples);
    assert MeanMs(samples) == sum / n;
    assert MeanMs(samples) - lo == (sum - lo * n) / n;
    assert hi - MeanMs(samples) == (hi * n - sum) / n;
  }

  /** Both stamps set, the stop not before the start: the duration is defined and not negative. */
  lemma OrderedStampsGiveDuration(r: InjectorResults)
    requires UNSET < r.startTimeInNanos <= r.stopTimeInNanos
    ensures r.DurationInSec().Success? && r.DurationInSec().value >= 0.0
  {
    var d := r.DurationInSec().value;
    assert d * NANOS_PER_SEC >= 0.0;
  }

  /** A fresh record (both stamps unset) always raises a MeasurementException. */
  lemma FreshRecordHasNoDuration(r: InjectorResults)
    requires r.startTimeInNanos == UNSET || r.stopTimeInNanos == UNSET
    ensures r.DurationInSec().Failure?
  {
  }
}
