/** The detector that asks for a repartition after too many unbalanced checks in a row. */
module Imbalance {

  /** What one check looks at: the queue length of every worker, and the counters of dispatched and of
      cross-partition requests with their values at the start of the interval. */
  datatype Check = Check(sizes: seq<nat>, dispatched: nat, start: nat, cross: nat, crossStart: nat)

  // ---- one check ----

  function Sum(sizes: seq<nat>): nat {
    if sizes == [] then 0 else Sum(sizes[..|sizes| - 1]) + sizes[|sizes| - 1]
  }

  function Abs(x: real): real {
    if x < 0.0 then -x else x
  }

  function Average(k: Check): real
    requires |k.sizes| > 0
  {
    Sum(k.sizes) as real / |k.sizes| as real
  }

  /** A queue length is further from the average than the threshold allows. */
  predicate Outside(size: nat, average: real, threshold: real) {
    Abs(size as real - average) > average * threshold
  }

  predicate OutOfBand(k: Check, threshold: real, i: nat) {
    i < |k.sizes| && Outside(k.sizes[i], Average(k), threshold)
  }

  /** A check takes a reading of the cross-partition ratio only if requests were dispatched meanwhile. */
  predicate HasReading(k: Check) {
    k.dispatched > k.start
  }

  predicate CrossHigh(k: Check, threshold: real)
    requires HasReading(k)
  {
    (k.cross - k.crossStart) as real / (k.dispatched - k.start) as real > threshold
  }

  lemma {:induction false} SumSplit(a: seq<nat>, b: seq<nat>)
    ensures Sum(a + b) == Sum(a) + Sum(b)
    ensures forall x: nat :: Sum([x]) == x
  {
    if b == [] {
      assert a + b == a;
    } else {
      SumSplit(a, b[..|b| - 1]);
      assert (a + b)[..|a + b| - 1] == a + b[..|b| - 1];
    }
  }

  /** A worker is out of band if and only if its queue is shorter than (1 - threshold) or longer than
      (1 + threshold) times the average, which is the number that times the number of workers gives the total. */
  lemma OutOfBandMeans(k: Check, threshold: real, i: nat, average: real)
    requires i < |k.sizes| && average * |k.sizes| as real == Sum(k.sizes) as real
    ensures OutOfBand(k, threshold, i) <==>
              || (k.sizes[i] as real) < average * (1.0 - threshold)
              || (k.sizes[i] as real) > average * (1.0 + threshold)
  {
    assert Average(k) == average by { QuotientIs(average, |k.sizes| as real, Sum(k.sizes) as real); }
    assert average * (1.0 - threshold) == average - average * threshold;
    assert average * (1.0 + threshold) == average + average * threshold;
  }

  lemma QuotientIs(q: real, n: real, total: real)
    requires n > 0.0 && q * n == total
    ensures total / n == q
  {
  }

  /** The ratio is too high if and only if requests were dispatched in the interval and the cross-partition ones
      among them exceed `threshold` times their number. */
  lemma CrossHighMeans(k: Check, threshold: real)
    ensures HasReading(k) && CrossHigh(k, threshold) <==>
              && k.dispatched > k.start
              && (k.cross - k.crossStart) as real > threshold * (k.dispatched - k.start) as real
  {
    if k.dispatched > k.start {
      var (x, n) := ((k.cross - k.crossStart) as real, (k.dispatched - k.start) as real);
      assert x / n * n == x;
      if x / n > threshold {
        Scaled(threshold, x / n, n);
      } else if x / n < threshold {
        Scaled(x / n, threshold, n);
      }
    }
  }

  lemma Scaled(a: real, b: real, n: real)
    requires a < b && n > 0.0
    ensures a * n < b * n
  {
  }

  // ---- runs of checks ----

  /** The readings the checks took, in order. */
  ghost function Readings(ks: seq<Check>, threshold: real): seq<bool>
  {
    if ks == [] then []
    else
      var (before, last) := (Readings(ks[..|ks| - 1], threshold), ks[|ks| - 1]);
      if HasReading(last) then before + [CrossHigh(last, threshold)] else before
  }

  ghost function Bands(ks: seq<Check>, threshold: real, i: nat): (bs: seq<bool>)
    ensures |bs| == |ks|
  {
    seq(|ks|, (j: nat) requires j < |ks| => OutOfBand(ks[j], threshold, i))
  }

  /** How many readings in a row, up to the last one, are true. */
  ghost function RunLength(bs: seq<bool>): nat {
    if bs == [] || !bs[|bs| - 1] then 0 else RunLength(bs[..|bs| - 1]) + 1
  }

  /** The current run of checks that found worker `i` out of band, and of readings that were high. */
  ghost function WorkerRun(ks: seq<Check>, threshold: real, i: nat): nat {
    RunLength(Bands(ks, threshold, i))
  }

  ghost function CrossRun(ks: seq<Check>, threshold: real): nat {
    RunLength(Readings(ks, threshold))
  }

  /** Some run, of one worker or of the cross-partition ratio, is longer than `limit`. */
  ghost predicate Alarm(ks: seq<Check>, threshold: real, workers: nat, limit: nat) {
    CrossRun(ks, threshold) > limit || exists i: nat :: i < workers && WorkerRun(ks, threshold, i) > limit
  }

  /** The checks since the last alarm. */
  ghost function SinceAlarm(ks: seq<Check>, threshold: real, workers: nat, limit: nat): (rest: seq<Check>)
    ensures !Alarm(rest, threshold, workers, limit)
  {
    if ks == [] then []
    else
      var now := SinceAlarm(ks[..|ks| - 1], threshold, workers, limit) + [ks[|ks| - 1]];
      if Alarm(now, threshold, workers, limit) then [] else now
  }

  /** The last `n` readings are true. */
  ghost predicate AllTrue(bs: seq<bool>, n: nat) {
    n <= |bs| && forall j :: |bs| - n <= j < |bs| ==> bs[j]
  }

  lemma {:induction false} RunIsTrailing(bs: seq<bool>, n: nat)
    ensures RunLength(bs) >= n <==> AllTrue(bs, n)
  {
    if n > 0 && bs != [] {
      RunIsTrailing(bs[..|bs| - 1], n - 1);
    }
  }

  lemma BandsGrow(ks: seq<Check>, k: Check, threshold: real, i: nat)
    ensures Bands(ks + [k], threshold, i) == Bands(ks, threshold, i) + [OutOfBand(k, threshold, i)]
    ensures WorkerRun(ks + [k], threshold, i)
         == if OutOfBand(k, threshold, i) then WorkerRun(ks, threshold, i) + 1 else 0
  {
    assert Bands(ks + [k], threshold, i) == Bands(ks, threshold, i) + [OutOfBand(k, threshold, i)];
  }

  lemma ReadingsGrow(ks: seq<Check>, k: Check, threshold: real)
    ensures Readings(ks + [k], threshold)
         == Readings(ks, threshold) + if HasReading(k) then [CrossHigh(k, threshold)] else []
    ensures CrossRun(ks + [k], threshold)
         == var before := CrossRun(ks, threshold);
            if !HasReading(k) then before else if CrossHigh(k, threshold) then before + 1 else 0
  {
    assert (ks + [k])[..|ks|] == ks;
  }

  /** The last `limit` + 1 checks found worker `i` out of band. */
  ghost predicate LongOutOfBand(ks: seq<Check>, threshold: real, i: nat, limit: nat) {
    limit < |ks| && forall j :: |ks| - limit - 1 <= j < |ks| ==> OutOfBand(ks[j], threshold, i)
  }

  lemma BandIsTrailing(ks: seq<Check>, threshold: real, i: nat, limit: nat)
    ensures WorkerRun(ks, threshold, i) > limit <==> LongOutOfBand(ks, threshold, i, limit)
  {
    hide OutOfBand;
    var bs := Bands(ks, threshold, i);
    RunIsTrailing(bs, limit + 1);
    assert forall j :: 0 <= j < |ks| ==> bs[j] == OutOfBand(ks[j], threshold, i);
    if AllTrue(bs, limit + 1) {
      forall j | |ks| - limit - 1 <= j < |ks| ensures OutOfBand(ks[j], threshold, i) {
        assert bs[j];
      }
    }
  }

  /** An alarm means that the last `limit` + 1 checks all found the same worker out of band, or the last
      `limit` + 1 readings all found too many cross-partition requests. */
  lemma AlarmMeansARun(ks: seq<Check>, threshold: real, workers: nat, limit: nat)
    ensures Alarm(ks, threshold, workers, limit) <==>
              || AllTrue(Readings(ks, threshold), limit + 1)
              || (exists i: nat :: i < workers && LongOutOfBand(ks, threshold, i, limit))
  {
    RunIsTrailing(Readings(ks, threshold), limit + 1);
    forall i: nat ensures WorkerRun(ks, threshold, i) > limit <==> LongOutOfBand(ks, threshold, i, limit) {
      BandIsTrailing(ks, threshold, i, limit);
    }
    hide WorkerRun, LongOutOfBand, AllTrue;
  }

  lemma SinceGrows(ks: seq<Check>, k: Check, threshold: real, workers: nat, limit: nat)
    ensures var now := SinceAlarm(ks, threshold, workers, limit) + [k];
            SinceAlarm(ks + [k], threshold, workers, limit) == if Alarm(now, threshold, workers, limit) then [] else now
  {
    assert (ks + [k])[..|ks|] == ks;
  }

  lemma NothingRuns(threshold: real)
    ensures CrossRun([], threshold) == 0 && forall i: nat :: WorkerRun([], threshold, i) == 0
  {
  }

  /** A run that raises the alarm has just become one longer than the limit. */
  lemma AlarmAtLimit(ks: seq<Check>, k: Check, threshold: real, workers: nat, limit: nat)
    requires !Alarm(ks, threshold, workers, limit)
    ensures CrossRun(ks + [k], threshold) <= limit + 1
    ensures forall i: nat :: i < workers ==> WorkerRun(ks + [k], threshold, i) <= limit + 1
  {
    ReadingsGrow(ks, k, threshold);
    forall i: nat | i < workers ensures WorkerRun(ks + [k], threshold, i) <= limit + 1 {
      BandsGrow(ks, k, threshold, i);
    }
  }

  // ---- the detector ----

  class Detector {
    const limit: nat
    const threshold: real
    const successiveImbalance: array<nat>
    const inQueueAmount: array<nat>
    var successiveCross: nat
    ghost var history: seq<Check>

    /** Every counter is the length of the current run since the last alarm. */
    ghost predicate Valid()
      reads this, successiveImbalance
    {
      var n := successiveImbalance.Length;
      && 0 < n == inQueueAmount.Length && successiveImbalance != inQueueAmount
      && var since := SinceAlarm(history, threshold, n, limit);
      && successiveCross == CrossRun(since, threshold) <= limit
      && forall i: nat :: i < n ==> successiveImbalance[i] == WorkerRun(since, threshold, i) <= limit
    }

    constructor (workers: nat, limit: nat, threshold: real)
      requires workers > 0
      ensures Valid() && history == [] && fresh(successiveImbalance) && fresh(inQueueAmount)
      ensures this.limit == limit && this.threshold == threshold && successiveImbalance.Length == workers
    {
      this.limit, this.threshold := limit, threshold;
      successiveImbalance := new nat[workers](_ => 0);
      inQueueAmount := new nat[workers](_ => 0);
      successiveCross := 0;
      history := [];
    }

    method ClearImbalanceCount()
      modifies successiveImbalance
      ensures forall i :: 0 <= i < successiveImbalance.Length ==> successiveImbalance[i] == 0
    {
      for i := 0 to successiveImbalance.Length
        invariant forall j :: 0 <= j < i ==> successiveImbalance[j] == 0
      {
        successiveImbalance[i] := 0;
      }
    }

    method IsCrossPartitionIntensive(k: Check) returns (intensive: bool)
      requires k.crossStart <= k.cross
      modifies this`successiveCross
      ensures successiveCross == (if !HasReading(k) then old(successiveCross)
                                  else if CrossHigh(k, threshold) then old(successiveCross) + 1 else 0)
      ensures intensive <==> HasReading(k) && successiveCross > limit
    {
      intensive := false;
      if k.dispatched > k.start {
        var ratio := (k.cross - k.crossStart) as real / (k.dispatched - k.start) as real;
        if ratio > threshold {
          successiveCross := successiveCross + 1;
          if successiveCross > limit {
            intensive := true;
          }
        } else {
          successiveCross := 0;
        }
      }
    }

    method MeasureQueues(k: Check) returns (sum: nat)
      requires |k.sizes| == inQueueAmount.Length
      modifies inQueueAmount
      ensures inQueueAmount[..] == k.sizes && sum == Sum(k.sizes)
    {
      sum := 0;
      for i := 0 to |k.sizes|
        invariant inQueueAmount[..i] == k.sizes[..i] && sum == Sum(k.sizes[..i])
      {
        inQueueAmount[i] := k.sizes[i];
        sum := sum + k.sizes[i];
        assert k.sizes[..i + 1][..i] == k.sizes[..i];
      }
      assert k.sizes[..|k.sizes|] == k.sizes;
      assert inQueueAmount[..] == inQueueAmount[..|k.sizes|];
    }

    /** Tells whether the checks since the last alarm, this one included, raise the alarm. */
    method Imbalance(k: Check) returns (imbalance: bool)
      requires Valid() && |k.sizes| == successiveImbalance.Length && k.crossStart <= k.cross
      modifies this, successiveImbalance, inQueueAmount
      ensures Valid() && history == old(history) + [k]
      ensures imbalance <==> Alarm(SinceAlarm(old(history), threshold, successiveImbalance.Length, limit) + [k],
                                   threshold, successiveImbalance.Length, limit)
    {
      hide WorkerRun, CrossRun, CrossHigh, SinceAlarm, Sum, Outside;
      NothingRuns(threshold);
      var n := successiveImbalance.Length;
      ghost var since := SinceAlarm(history, threshold, n, limit);
      ghost var now := since + [k];
      SinceGrows(history, k, threshold, n, limit);
      ReadingsGrow(since, k, threshold);
      history := history + [k];
      var intensive := IsCrossPartitionIntensive(k);
      if intensive {
        successiveCross := 0;
        ClearImbalanceCount();
        return true;
      }
      imbalance := false;
      var sum := MeasureQueues(k);
      var average := sum as real / n as real;
      assert average == Average(k);
      hide Average;
      var i := 0;
      while i < n
        invariant 0 <= i <= n && !imbalance
        invariant forall j :: 0 <= j < i ==> successiveImbalance[j] == WorkerRun(now, threshold, j) <= limit
        invariant forall j :: i <= j < n ==> successiveImbalance[j] == WorkerRun(since, threshold, j)
        invariant inQueueAmount[..] == k.sizes && history == old(history) + [k]
        invariant successiveCross == CrossRun(now, threshold) <= limit
      {
        BandsGrow(since, k, threshold, i);
        assert inQueueAmount[..][i] == k.sizes[i];
        if Outside(inQueueAmount[i], average, threshold) {
          successiveImbalance[i] := successiveImbalance[i] + 1;
          if successiveImbalance[i] > limit {
            imbalance := true;
            successiveCross := 0;
            ClearImbalanceCount();
            break;
          }
        } else {
          successiveImbalance[i] := 0;
        }
        i := i + 1;
      }
    }
  }
}
