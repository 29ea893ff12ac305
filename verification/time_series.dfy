/**
 * The visit-over-time series of services/url.go: `visitPerDay` turns the
 * sparse `{time, count}` rows the store returns into one point per hour or
 * day bucket, and `ClickOverTime` chooses the bucket size from a range name.
 *
 * Time is an integer number of nanoseconds since Go's zero time; a
 * `time.Duration` is a number of nanoseconds.
 */
module TimeSeries {
  import opened GoErrors

  const Hour: int := 3_600_000_000_000
  const Day: int := 24 * Hour

  /** `domain.TimeSeriesData`. */
  datatype Point = Point(time: int, count: int)

  /** `domain.Period`. */
  datatype Period = Period(since: int, until: int)

  /** `t.Truncate(d)`: `t` rounded down to a multiple of `d`. */
  function Truncate(t: int, d: int): (r: int)
    requires d > 0
    ensures r == (t / d) * d
    ensures r <= t < r + d
  {
    t - t % d
  }

  /** Number of buckets from `start` to `end` inclusive, `trunc` apart. */
  function BucketCount(start: int, end: int, trunc: int): nat
    requires trunc > 0
  {
    if start <= end then (end - start) / trunc + 1 else 0
  }

  /** The first point of `data` stamped exactly `t`, or a zero point at `t`. */
  function Fill(data: seq<Point>, t: int): (p: Point)
    ensures p.time == t
    ensures p in data || p == Point(t, 0)
  {
    if |data| == 0 then Point(t, 0)
    else if data[0].time == t then data[0]
    else Fill(data[1..], t)
  }

  /** The buckets `current`, `current + trunc`, ... up to and including `end`. */
  function Buckets(data: seq<Point>, current: int, end: int, trunc: int): seq<Point>
    requires trunc > 0
    decreases end - current
  {
    if current > end then []
    else [Fill(data, current)] + Buckets(data, current + trunc, end, trunc)
  }

  /**
   * The dense series: one point per bucket boundary from `since` truncated
   * to `until` truncated, each the first input point at that instant or 0.
   */
  function Bucketize(data: seq<Point>, period: Period, trunc: int): seq<Point>
    requires trunc > 0
  {
    Buckets(data, Truncate(period.since, trunc), Truncate(period.until, trunc), trunc)
  }

  // ---- the implementation -------------------------------------------------

  /** `visitPerDay`: walk the buckets, searching the input for each one. */
  method VisitPerDay(data: seq<Point>, period: Period, trunc: int) returns (newData: seq<Point>)
    requires trunc > 0
    ensures newData == Bucketize(data, period, trunc)
  {
    var current := Truncate(period.since, trunc);
    var end := Truncate(period.until, trunc);
    newData := [];
    while current <= end
      invariant newData + Buckets(data, current, end, trunc) == Bucketize(data, period, trunc)
      decreases end - current
    {
      var found := false;
      var i := 0;
      while i < |data| && !found
        invariant 0 <= i <= |data|
        invariant forall k :: 0 <= k < i - (if found then 1 else 0) ==> data[k].time != current
        invariant found ==> i >= 1 && data[i - 1].time == current
      {
        if data[i].time == current {
          found := true;
        }
        i := i + 1;
      }
      var point;
      if found {
        point := data[i - 1];
        FillFirst(data, current, i - 1);
      } else {
        point := Point(current, 0);
        FillAbsent(data, current);
      }
      newData := newData + [point];
      current := current + trunc;
    }
  }

  lemma {:induction false} FillFirst(data: seq<Point>, t: int, i: nat)
    requires i < |data| && data[i].time == t
    requires forall k :: 0 <= k < i ==> data[k].time != t
    ensures Fill(data, t) == data[i]
  {
    if i > 0 { FillFirst(data[1..], t, i - 1); }
  }

  lemma {:induction false} FillAbsent(data: seq<Point>, t: int)
    requires forall k :: 0 <= k < |data| ==> data[k].time != t
    ensures Fill(data, t) == Point(t, 0)
  {
    if |data| > 0 { FillAbsent(data[1..], t); }
  }

  // ---- arithmetic helpers -------------------------------------------------

  lemma MulLE(a: int, b: int, c: int)
    requires a <= b && c > 0
    ensures a * c <= b * c
  {
    assert b * c - a * c == (b - a) * c;
  }

  /** Euclidean division has one quotient and one remainder. */
  lemma DivModUnique(x: int, d: int, q: int, r: int)
    requires d > 0 && 0 <= r < d && x == q * d + r
    ensures x / d == q && x % d == r
  {
    var q', r' := x / d, x % d;
    assert (q - q') * d == r' - r;
    if q - q' >= 1 {
      MulLE(1, q - q', d);
    } else if q - q' <= -1 {
      MulLE(q - q', -1, d);
    }
  }

  lemma ModShift(y: int, d: int)
    requires d > 0
    ensures (y + d) % d == y % d
  {
    assert (y / d + 1) * d == (y / d) * d + d;
    DivModUnique(y + d, d, y / d + 1, y % d);
  }

  // ---- properties of the series -------------------------------------------

  /**
   * The series has `(end - start) / trunc + 1` points (none when
   * start > end), and point k is the fill of instant `start + k * trunc`.
   */
  lemma {:induction false} BucketsShape(data: seq<Point>, start: int, end: int, trunc: int)
    requires trunc > 0
    ensures |Buckets(data, start, end, trunc)| == BucketCount(start, end, trunc)
    ensures forall k :: 0 <= k < |Buckets(data, start, end, trunc)| ==>
              Buckets(data, start, end, trunc)[k] == Fill(data, start + k * trunc)
    decreases end - start
  {
    if start <= end {
      BucketsShape(data, start + trunc, end, trunc);
      var r := Buckets(data, start, end, trunc);
      if start + trunc > end {
        DivModUnique(end - start, trunc, 0, end - start);
      } else {
        var q, rem := (end - start - trunc) / trunc, (end - start - trunc) % trunc;
        assert (q + 1) * trunc == q * trunc + trunc;
        DivModUnique(end - start, trunc, q + 1, rem);
      }
      forall k | 0 < k < |r|
        ensures r[k] == Fill(data, start + k * trunc)
      {
        assert start + trunc + (k - 1) * trunc == start + k * trunc;
      }
    }
  }

  /** Bucket instants are at least `start` and strictly increasing. */
  lemma {:induction false} BucketsAscending(data: seq<Point>, start: int, end: int, trunc: int)
    requires trunc > 0
    ensures forall k :: 0 <= k < |Buckets(data, start, end, trunc)| ==>
              Buckets(data, start, end, trunc)[k].time >= start
    ensures forall i, j :: 0 <= i < j < |Buckets(data, start, end, trunc)| ==>
              Buckets(data, start, end, trunc)[i].time < Buckets(data, start, end, trunc)[j].time
    decreases end - start
  {
    if start <= end {
      BucketsAscending(data, start + trunc, end, trunc);
    }
  }

  /** The visible contract of `visitPerDay`: bucket count, bucket instants, ascending order. */
  lemma BucketizeShape(data: seq<Point>, period: Period, trunc: int)
    requires trunc > 0
    ensures var start, end := Truncate(period.since, trunc), Truncate(period.until, trunc);
      var r := Bucketize(data, period, trunc);
      && (start <= end ==> |r| == (end - start) / trunc + 1)
      && (start > end ==> r == [])
      && (forall k :: 0 <= k < |r| ==> r[k].time == start + k * trunc)
      && (forall k :: 0 <= k < |r| ==> r[k] == Fill(data, start + k * trunc))
      && (forall i, j :: 0 <= i < j < |r| ==> r[i].time < r[j].time)
  {
    var start, end := Truncate(period.since, trunc), Truncate(period.until, trunc);
    BucketsShape(data, start, end, trunc);
    BucketsAscending(data, start, end, trunc);
  }

  /** In a series whose point k sits at `start + k * trunc`, the fill of that instant is point k. */
  lemma FillOwnSeries(r: seq<Point>, start: int, trunc: int, k: nat)
    requires trunc > 0 && k < |r|
    requires forall j :: 0 <= j < |r| ==> r[j].time == start + j * trunc
    ensures Fill(r, start + k * trunc) == r[k]
  {
    forall j | 0 <= j < k
      ensures r[j].time != start + k * trunc
    {
      MulLE(j + 1, k, trunc);
      assert (j + 1) * trunc == j * trunc + trunc;
    }
    FillFirst(r, start + k * trunc, k);
  }

  /** Feeding the series back in, with the same period and bucket size, returns it unchanged. */
  lemma BucketizeIdempotent(data: seq<Point>, period: Period, trunc: int)
    requires trunc > 0
    ensures Bucketize(Bucketize(data, period, trunc), period, trunc) == Bucketize(data, period, trunc)
  {
    var start, end := Truncate(period.since, trunc), Truncate(period.until, trunc);
    var r := Bucketize(data, period, trunc);
    var r2 := Bucketize(r, period, trunc);
    BucketsShape(data, start, end, trunc);
    assert forall j :: 0 <= j < |r| ==> r[j].time == start + j * trunc;
    BucketsShape(r, start, end, trunc);
    assert |r2| == |r|;
    forall k | 0 <= k < |r|
      ensures r2[k] == r[k]
    {
      FillOwnSeries(r, start, trunc, k);
    }
  }

  /** An instant that is not a bucket boundary between `start` and `end`. */
  predicate OffGrid(t: int, start: int, end: int, trunc: int)
    requires trunc > 0
  {
    t < start || t > end || (t - start) % trunc != 0
  }

  lemma {:induction false} FillSkip(a: seq<Point>, x: Point, b: seq<Point>, t: int)
    requires x.time != t
    ensures Fill(a + [x] + b, t) == Fill(a + b, t)
  {
    if |a| > 0 {
      FillSkip(a[1..], x, b, t);
      assert (a + [x] + b)[1..] == a[1..] + [x] + b;
      assert (a + b)[1..] == a[1..] + b;
    } else {
      assert (a + [x] + b)[1..] == a + b;
    }
  }

  lemma {:induction false} BucketsIgnore(a: seq<Point>, x: Point, b: seq<Point>, start: int, end: int, trunc: int)
    requires trunc > 0 && OffGrid(x.time, start, end, trunc)
    ensures Buckets(a + [x] + b, start, end, trunc) == Buckets(a + b, start, end, trunc)
    decreases end - start
  {
    if start <= end {
      DivModUnique(0, trunc, 0, 0);
      assert x.time != start;
      FillSkip(a, x, b, start);
      if start + trunc <= x.time <= end {
        ModShift(x.time - start - trunc, trunc);
        assert (x.time - (start + trunc)) % trunc != 0;
      }
      assert OffGrid(x.time, start + trunc, end, trunc);
      BucketsIgnore(a, x, b, start + trunc, end, trunc);
    }
  }

  /** An input point off the bucket grid, or outside [start, end], has no effect on the series. */
  lemma DropsOffGrid(data: seq<Point>, i: nat, period: Period, trunc: int)
    requires trunc > 0 && i < |data|
    requires OffGrid(data[i].time, Truncate(period.since, trunc), Truncate(period.until, trunc), trunc)
    ensures Bucketize(data[..i] + data[i + 1..], period, trunc) == Bucketize(data, period, trunc)
  {
    assert data == data[..i] + [data[i]] + data[i + 1..];
    BucketsIgnore(data[..i], data[i], data[i + 1..],
      Truncate(period.since, trunc), Truncate(period.until, trunc), trunc);
  }

  // ---- ClickOverTime -------------------------------------------------------

  /**
   * The store's truncation keyword and the bucket size for a range name:
   * "week" and "month" chart per day, "day" and anything else per hour.
   */
  function Granularity(timeRange: string): (g: (string, int))
    ensures timeRange == "week" || timeRange == "month" ==> g == ("day", Day)
    ensures timeRange != "week" && timeRange != "month" ==> g == ("hour", Hour)
    ensures g.1 > 0
  {
    if timeRange == "day" then ("hour", Hour)
    else if timeRange == "week" then ("day", Day)
    else if timeRange == "month" then ("day", Day)
    else ("hour", Hour)
  }

  /**
   * `ClickOverTime`: query the store at the chosen truncation, then fill the
   * gaps at the matching bucket size. A store error comes back wrapped, with
   * no series.
   */
  method ClickOverTime(urlID: int, period: Period, timeRange: string,
                       visitOverTime: (int, Period, string) -> Result<seq<Point>>)
    returns (r: Result<seq<Point>>)
    ensures visitOverTime(urlID, period, Granularity(timeRange).0).Err? ==>
      r == Err(Wrap("failed to get visit over time", visitOverTime(urlID, period, Granularity(timeRange).0).error))
    ensures visitOverTime(urlID, period, Granularity(timeRange).0).Ok? ==>
      r == Ok(Bucketize(visitOverTime(urlID, period, Granularity(timeRange).0).value, period, Granularity(timeRange).1))
  {
    var timeTrunc, trunc := "hour", Hour;
    if timeRange == "day" {
      timeTrunc, trunc := "hour", Hour;
    } else if timeRange == "week" {
      timeTrunc, trunc := "day", Day;
    } else if timeRange == "month" {
      timeTrunc, trunc := "day", Day;
    }
    var data := visitOverTime(urlID, period, timeTrunc);
    if data.Err? {
      return Err(Wrap("failed to get visit over time", data.error));
    }
    var series := VisitPerDay(data.value, period, trunc);
    return Ok(series);
  }
}
