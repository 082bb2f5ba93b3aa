/**
 * The four request counters (`apiStats`) and the incremental running mean of
 * response times. The same record shape is kept by the instrumentation
 * library and, separately, by the payment and notification services.
 */
module Stats {

  function Sum(ts: seq<int>): int {
    if ts == [] then 0 else ts[0] + Sum(ts[1..])
  }

  /** The arithmetic mean of the recorded response times; 0 when nothing is recorded. */
  function Mean(ts: seq<int>): real {
    if |ts| == 0 then 0.0 else Sum(ts) as real / |ts| as real
  }

  /**
    * The update `avg = (avg * (total - 1) + t) / total`, where `total` is the
    * request count after it has been incremented.
    */
  function NextAverage(avg: real, total: nat, t: int): real
    requires total >= 1
  {
    (avg * (total - 1) as real + t as real) / total as real
  }

  /** The mean a counter holds after applying the update to each time in turn, starting from 0. */
  function RunningAverage(ts: seq<int>): real {
    if ts == [] then 0.0
    else NextAverage(RunningAverage(ts[..|ts| - 1]), |ts|, ts[|ts| - 1])
  }

  lemma {:induction false} SumAppend(ts: seq<int>, t: int)
    ensures Sum(ts + [t]) == Sum(ts) + t
  {
    if ts == [] {
      assert [] + [t] == [t];
    } else {
      assert (ts + [t])[1..] == ts[1..] + [t];
      SumAppend(ts[1..], t);
    }
  }

  /** One application of the update to the mean of `ts` yields the mean of `ts + [t]`. */
  lemma NextAverageIsMean(ts: seq<int>, t: int)
    ensures NextAverage(Mean(ts), |ts| + 1, t) == Mean(ts + [t])
  {
    SumAppend(ts, t);
    var n := |ts| as real;
    assert (|ts| + 1 - 1) as real == n;
    if |ts| > 0 {
      assert Mean(ts) * n == Sum(ts) as real;
    }
  }

  /** After k updates with times t1..tk the counter holds (t1 + ... + tk) / k. */
  lemma {:induction false} RunningAverageIsMean(ts: seq<int>)
    ensures RunningAverage(ts) == Mean(ts)
  {
    if ts != [] {
      var init, last := ts[..|ts| - 1], ts[|ts| - 1];
      RunningAverageIsMean(init);
      NextAverageIsMean(init, last);
      assert init + [last] == ts;
    }
  }

  /** A read-only copy of the counters, as `getApiStats()` hands them out. */
  datatype Snapshot = Snapshot(
    totalRequests: nat,
    successfulRequests: nat,
    failedRequests: nat,
    averageResponseTime: real)

  /** The mutable `apiStats` object. */
  class ApiStats {
    var totalRequests: nat
    var successfulRequests: nat
    var failedRequests: nat
    var averageResponseTime: real
    /** The response times folded into `averageResponseTime`, one per counted request. */
    ghost var latencies: seq<int>

    ghost predicate Valid()
      reads this
    {
      |latencies| == totalRequests && averageResponseTime == Mean(latencies)
    }

    constructor ()
      ensures Valid()
      ensures totalRequests == 0 && successfulRequests == 0 && failedRequests == 0
      ensures averageResponseTime == 0.0 && latencies == []
    {
      totalRequests, successfulRequests, failedRequests := 0, 0, 0;
      averageResponseTime := 0.0;
      latencies := [];
    }

    function Read(): (s: Snapshot)
      reads this
      requires Valid()
      ensures s.totalRequests == |latencies| && s.averageResponseTime == Mean(latencies)
      ensures s.successfulRequests == successfulRequests && s.failedRequests == failedRequests
    {
      Snapshot(totalRequests, successfulRequests, failedRequests, averageResponseTime)
    }

    /** `totalRequests++` followed by the running-mean update with response time `t`. */
    method CountRequest(t: int)
      requires Valid()
      modifies this
      ensures Valid()
      ensures totalRequests == old(totalRequests) + 1 && latencies == old(latencies) + [t]
      ensures successfulRequests == old(successfulRequests) && failedRequests == old(failedRequests)
    {
      totalRequests := totalRequests + 1;
      averageResponseTime := (averageResponseTime * (totalRequests - 1) as real + t as real) / totalRequests as real;
      NextAverageIsMean(latencies, t);
      latencies := latencies + [t];
    }

    method CountSuccess()
      modifies this
      ensures successfulRequests == old(successfulRequests) + 1
      ensures totalRequests == old(totalRequests) && failedRequests == old(failedRequests)
      ensures averageResponseTime == old(averageResponseTime) && latencies == old(latencies)
    {
      successfulRequests := successfulRequests + 1;
    }

    method CountFailure()
      modifies this
      ensures failedRequests == old(failedRequests) + 1
      ensures totalRequests == old(totalRequests) && successfulRequests == old(successfulRequests)
      ensures averageResponseTime == old(averageResponseTime) && latencies == old(latencies)
    {
      failedRequests := failedRequests + 1;
    }

    /** The effect of a success path in the payment and notification handlers. */
    twostate predicate CountedSuccess(t: int)
      reads this
    {
      && successfulRequests == old(successfulRequests) + 1
      && totalRequests == old(totalRequests) + 1
      && failedRequests == old(failedRequests)
      && latencies == old(latencies) + [t]
    }

    /** The effect of a failure path in the payment and notification handlers. */
    twostate predicate CountedFailure()
      reads this
    {
      && failedRequests == old(failedRequests) + 1
      && totalRequests == old(totalRequests)
      && successfulRequests == old(successfulRequests)
      && averageResponseTime == old(averageResponseTime)
      && latencies == old(latencies)
    }
  }
}
