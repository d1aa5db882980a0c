/**
 * The dose ledger shared by both tracker variants: an insertion-ordered list
 * of dose records with integer millisecond timestamps, and the earliest and
 * latest timestamp that the chart window is built from.
 */
module Ledger {

  /** One logged intake: compound key, amount in mg, instant in ms since the epoch. */
  datatype Dose = Dose(compound: string, amount: real, timestamp: int)

  const HOUR_MS: int := 3600000
  const DAY_MS: int := 86400000

  /** `(currentTime - doseTime) / (1000 * 60 * 60)`: signed hours from `from` to `to`. */
  function HoursBetween(from: int, to: int): (h: real)
    ensures h < 0.0 <==> to < from
    ensures h == 0.0 <==> to == from
  {
    (to - from) as real / 3600000.0
  }

  /** `Math.min(...doses.map(d => d.timestamp))`. */
  function Earliest(doses: seq<Dose>): (t: int)
    requires |doses| > 0
    ensures exists i :: 0 <= i < |doses| && doses[i].timestamp == t
    ensures forall i :: 0 <= i < |doses| ==> t <= doses[i].timestamp
  {
    if |doses| == 1 then doses[0].timestamp
    else
      var rest := Earliest(doses[1..]);
      assert forall i :: 1 <= i < |doses| ==> doses[i] == doses[1..][i - 1];
      if doses[0].timestamp <= rest then doses[0].timestamp else rest
  }

  /** `Math.max(...doses.map(d => d.timestamp))`. */
  function Latest(doses: seq<Dose>): (t: int)
    requires |doses| > 0
    ensures exists i :: 0 <= i < |doses| && doses[i].timestamp == t
    ensures forall i :: 0 <= i < |doses| ==> doses[i].timestamp <= t
  {
    if |doses| == 1 then doses[0].timestamp
    else
      var rest := Latest(doses[1..]);
      assert forall i :: 1 <= i < |doses| ==> doses[i] == doses[1..][i - 1];
      if doses[0].timestamp >= rest then doses[0].timestamp else rest
  }

  lemma EarliestNotAfterLatest(doses: seq<Dose>)
    requires |doses| > 0
    ensures Earliest(doses) <= Latest(doses)
  {
    assert Earliest(doses) <= doses[0].timestamp <= Latest(doses);
  }

  /** The hourly sample instants of the chart: from `first` while not after `last`. */
  function HourlyInstants(first: int, last: int): (r: seq<int>)
    decreases last - first + HOUR_MS
  {
    if first > last then [] else [first] + HourlyInstants(first + HOUR_MS, last)
  }

  /** The instants are `first + i` hours, and there are `(last - first) / 1h + 1` of them. */
  lemma {:induction false} HourlyInstantsShape(first: int, last: int)
    ensures |HourlyInstants(first, last)| == if first > last then 0 else (last - first) / HOUR_MS + 1
    ensures forall i :: 0 <= i < |HourlyInstants(first, last)| ==>
              HourlyInstants(first, last)[i] == first + i * HOUR_MS <= last
    decreases last - first + HOUR_MS
  {
    if first <= last {
      HourlyInstantsShape(first + HOUR_MS, last);
      var r := HourlyInstants(first, last);
      var tail := HourlyInstants(first + HOUR_MS, last);
      assert r == [first] + tail;
      if first + HOUR_MS > last {
        assert (last - first) / HOUR_MS == 0;
      } else {
        assert (last - first) / HOUR_MS == (last - (first + HOUR_MS)) / HOUR_MS + 1;
      }
      forall i | 0 < i < |r| ensures r[i] == first + i * HOUR_MS <= last {
        assert r[i] == tail[i - 1];
      }
    }
  }

  /** Within `[n hours, n + 1 hours)` the whole number of hours is `n`. */
  lemma HoursOfSpan(span: int, n: int)
    requires 0 <= n && n * HOUR_MS <= span < (n + 1) * HOUR_MS
    ensures span / HOUR_MS == n
  {
  }

  /** Row `i` of the chart is `i` hours after `first`, and no row is after `last`. */
  predicate Hourly(points: seq<TimePoint>, first: int, last: int)
  {
    forall i :: 0 <= i < |points| ==> points[i].time == first + i * HOUR_MS <= last
  }

  lemma HourlyAppend(points: seq<TimePoint>, p: TimePoint, first: int, last: int)
    requires Hourly(points, first, last)
    requires p.time == first + |points| * HOUR_MS <= last
    ensures Hourly(points + [p], first, last)
  {
  }

  /** Rows an hour apart from `first` that stop at the first instant after `last` are the hourly instants. */
  lemma HourlyRowsAreInstants(points: seq<TimePoint>, first: int, last: int)
    requires first <= last && Hourly(points, first, last)
    requires |points| > 0 && first + |points| * HOUR_MS > last
    ensures |points| == (last - first) / HOUR_MS + 1
    ensures |points| == |HourlyInstants(first, last)|
    ensures forall i :: 0 <= i < |points| ==> points[i].time == HourlyInstants(first, last)[i]
  {
    assert points[|points| - 1].time == first + (|points| - 1) * HOUR_MS <= last;
    HoursOfSpan(last - first, |points| - 1);
    HourlyInstantsShape(first, last);
  }

  /** One row of chart data: the sample instant and the level of every charted compound. */
  datatype TimePoint = TimePoint(time: int, levels: map<string, real>)
}
