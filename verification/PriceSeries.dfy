/**
 Time-weighted smoothing of pool prices and resampling of pool reserves
 (web/src/lib/priceSeries.ts), over the real numbers.
 */
module PriceSeries {
  import opened Prelude

  datatype Stamped<T> = Stamped(timestamp: real, item: T)
  type Point = Stamped<real>

  // ---------------------------------------------------------------- sorting and deduplication

  ghost predicate Sorted<T>(s: seq<Stamped<T>>) {
    forall i, j | 0 <= i < j < |s| :: s[i].timestamp <= s[j].timestamp
  }

  ghost predicate Ascending<T>(s: seq<Stamped<T>>) {
    forall i, j | 0 <= i < j < |s| :: s[i].timestamp < s[j].timestamp
  }

  // The points of one moment, in order.
  function Select<T>(s: seq<Stamped<T>>, t: real): seq<Stamped<T>> {
    if s == [] then [] else (if s[0].timestamp == t then [s[0]] else []) + Select(s[1..], t)
  }

  // The same points in another order, those of one moment still in theirs.
  ghost predicate Stable<T>(a: seq<Stamped<T>>, b: seq<Stamped<T>>) { forall t: real :: Select(a, t) == Select(b, t) }

  lemma {:induction false} SelectConcat<T>(a: seq<Stamped<T>>, b: seq<Stamped<T>>, t: real)
    ensures Select(a + b, t) == Select(a, t) + Select(b, t)
  {
    if a == [] {
      assert a + b == b;
    } else {
      assert (a + b)[1..] == a[1..] + b;
      SelectConcat(a[1..], b, t);
      var head := if a[0].timestamp == t then [a[0]] else [];
      assert head + (Select(a[1..], t) + Select(b, t)) == head + Select(a[1..], t) + Select(b, t);
    }
  }

  lemma {:induction false} SelectNone<T>(s: seq<Stamped<T>>, t: real)
    requires forall i | 0 <= i < |s| :: s[i].timestamp != t
    ensures Select(s, t) == []
  {
    if s != [] {
      SelectNone(s[1..], t);
    }
  }

  lemma InsertStable<T>(sorted: seq<Stamped<T>>, k: nat, x: Stamped<T>, given: seq<Stamped<T>>)
    requires k <= |sorted| && Stable(sorted, given)
    requires forall i | k <= i < |sorted| :: x.timestamp < sorted[i].timestamp
    ensures Stable(sorted[..k] + [x] + sorted[k..], given + [x])
  {
    forall t: real ensures Select(sorted[..k] + [x] + sorted[k..], t) == Select(given + [x], t) {
      SelectConcat(sorted[..k] + [x], sorted[k..], t);
      SelectConcat(sorted[..k], [x], t);
      SelectConcat(sorted[..k], sorted[k..], t);
      SelectConcat(given, [x], t);
      assert sorted == sorted[..k] + sorted[k..];
      assert Select(sorted, t) == Select(given, t);
      if t == x.timestamp {
        SelectNone(sorted[k..], t);
      }
    }
  }

  // The stable sort of the language.
  method SortByTime<T>(points: seq<Stamped<T>>) returns (sorted: seq<Stamped<T>>)
    ensures Sorted(sorted) && Stable(sorted, points) && |sorted| == |points|
  {
    sorted := [];
    for n := 0 to |points|
      invariant Sorted(sorted) && Stable(sorted, points[..n]) && |sorted| == n
    {
      var k: nat := |sorted|;
      while k > 0 && points[n].timestamp < sorted[k - 1].timestamp
        invariant 0 <= k <= |sorted| && forall i | k <= i < |sorted| :: points[n].timestamp < sorted[i].timestamp
      {
        k := k - 1;
      }
      InsertStable(sorted, k, points[n], points[..n]);
      assert points[..n + 1] == points[..n] + [points[n]];
      sorted := sorted[..k] + [points[n]] + sorted[k..];
    }
    assert points[..|points|] == points;
  }

  // A point as it comes in: a number is None when it is not finite.
  datatype Reading = Reading(timestamp: Option<real>, price: Option<real>)

  predicate IsPoint(x: Reading) { x.timestamp.Some? && x.price.Some? && x.price.value > 0.0 }

  function Positive(points: seq<Reading>): seq<Point> {
    if points == [] then []
    else
      var (time, price) := (points[0].timestamp, points[0].price);
      (if time.Some? && price.Some? && price.value > 0.0 then [Stamped(time.value, price.value)] else [])
      + Positive(points[1..])
  }

  // For each moment the last of its points, and nothing else.
  ghost predicate LastOfEach<T>(s: seq<Stamped<T>>, points: seq<Stamped<T>>) {
    && Ascending(s)
    && (forall i | 0 <= i < |s| :: IsLast(s[i], points))
    && (forall t: real | Select(points, t) != [] :: Stamps(s, t))
  }

  ghost predicate IsLast<T>(p: Stamped<T>, points: seq<Stamped<T>>) {
    var at := Select(points, p.timestamp); at != [] && p == at[|at| - 1]
  }

  ghost predicate Stamps<T>(s: seq<Stamped<T>>, t: real) { exists i :: 0 <= i < |s| && s[i].timestamp == t }

  lemma {:induction false} SelectStamps<T>(s: seq<Stamped<T>>, t: real)
    ensures Select(s, t) != [] ==> Stamps(s, t)
  {
    if forall i | 0 <= i < |s| :: s[i].timestamp != t {
      SelectNone(s, t);
    }
  }

  lemma {:induction false} SelectOneMore<T>(done: seq<Stamped<T>>, x: Stamped<T>, t: real)
    ensures Select(done + [x], t) == Select(done, t) + if x.timestamp == t then [x] else []
  {
    SelectConcat(done, [x], t);
  }

  lemma NotAfter<T>(s: seq<Stamped<T>>, done: seq<Stamped<T>>, x: Stamped<T>)
    requires LastOfEach(s, done) && forall i | 0 <= i < |done| :: done[i].timestamp <= x.timestamp
    ensures forall i | 0 <= i < |s| :: s[i].timestamp <= x.timestamp
  {
    forall i | 0 <= i < |s| ensures s[i].timestamp <= x.timestamp {
      assert IsLast(s[i], done);
      SelectStamps(done, s[i].timestamp);
    }
  }

  // The last point of another moment stays the last one; the new point is the last of its own.
  lemma LastStays<T>(p: Stamped<T>, done: seq<Stamped<T>>, x: Stamped<T>)
    ensures p.timestamp != x.timestamp && IsLast(p, done) ==> IsLast(p, done + [x])
    ensures IsLast(x, done + [x])
  {
    SelectOneMore(done, x, p.timestamp);
    SelectOneMore(done, x, x.timestamp);
  }

  // Moments stay stamped when the points keep theirs and the new one's is there.
  lemma {:induction false} StampsGrow<T>(s: seq<Stamped<T>>, next: seq<Stamped<T>>, done: seq<Stamped<T>>,
      x: Stamped<T>, t: real)
    requires Select(done, t) != [] ==> Stamps(s, t)
    requires |s| <= |next| && forall i | 0 <= i < |s| :: next[i].timestamp == s[i].timestamp
    requires Stamps(next, x.timestamp)
    ensures Select(done + [x], t) != [] ==> Stamps(next, t)
  {
    SelectOneMore(done, x, t);
    if t != x.timestamp && Select(done, t) != [] {
      var i :| 0 <= i < |s| && s[i].timestamp == t;
      assert next[i].timestamp == t;
    }
  }

  // One more point of a sorted list replaces the last one of the same moment ...
  lemma ReduceSame<T>(s: seq<Stamped<T>>, done: seq<Stamped<T>>, x: Stamped<T>)
    requires LastOfEach(s, done) && s != [] && s[|s| - 1].timestamp == x.timestamp
    ensures LastOfEach(s[|s| - 1 := x], done + [x])
  {
    var next := s[|s| - 1 := x];
    assert forall i | 0 <= i < |s| :: next[i].timestamp == s[i].timestamp;
    forall i | 0 <= i < |next| ensures IsLast(next[i], done + [x]) {
      LastStays(s[i], done, x);
    }
    assert next[|s| - 1].timestamp == x.timestamp;
    forall t: real ensures Select(done + [x], t) != [] ==> Stamps(next, t) {
      StampsGrow(s, next, done, x, t);
    }
  }

  // ... or comes after all of them.
  lemma ReduceNext<T>(s: seq<Stamped<T>>, done: seq<Stamped<T>>, x: Stamped<T>)
    requires LastOfEach(s, done) && forall i | 0 <= i < |s| :: s[i].timestamp < x.timestamp
    ensures LastOfEach(s + [x], done + [x])
  {
    var next := s + [x];
    forall i | 0 <= i < |next| ensures IsLast(next[i], done + [x]) {
      LastStays(next[i], done, x);
    }
    assert next[|s|].timestamp == x.timestamp;
    forall t: real ensures Select(done + [x], t) != [] ==> Stamps(next, t) {
      StampsGrow(s, next, done, x, t);
    }
  }

  // The filter, the sort and the reduction in front of the smoothing.
  method Prepare(points: seq<Reading>) returns (s: seq<Point>)
    ensures LastOfEach(s, Positive(points)) && forall i | 0 <= i < |s| :: s[i].item > 0.0
  {
    var kept := Filter(points);
    var sorted := SortByTime(kept);
    s := Reduce(sorted);
    LastsArePositive(s, sorted, kept);
  }

  method Filter(points: seq<Reading>) returns (kept: seq<Point>)
    ensures kept == Positive(points) && forall i | 0 <= i < |kept| :: kept[i].item > 0.0
  {
    kept := [];
    for n := 0 to |points|
      invariant kept + Positive(points[n..]) == Positive(points) && forall i | 0 <= i < |kept| :: kept[i].item > 0.0
    {
      assert points[n..][1..] == points[n + 1..];
      if IsPoint(points[n]) {
        kept := kept + [Stamped(points[n].timestamp.value, points[n].price.value)];
      }
    }
  }

  method Reduce(sorted: seq<Point>) returns (s: seq<Point>)
    requires Sorted(sorted)
    ensures LastOfEach(s, sorted)
  {
    s := [];
    for n := 0 to |sorted|
      invariant LastOfEach(s, sorted[..n])
    {
      assert sorted[..n + 1] == sorted[..n] + [sorted[n]];
      NotAfter(s, sorted[..n], sorted[n]);
      if s != [] && s[|s| - 1].timestamp == sorted[n].timestamp {
        ReduceSame(s, sorted[..n], sorted[n]);
        s := s[|s| - 1 := sorted[n]];
      } else {
        ReduceNext(s, sorted[..n], sorted[n]);
        s := s + [sorted[n]];
      }
    }
    assert sorted[..|sorted|] == sorted;
  }

  lemma LastsArePositive(s: seq<Point>, sorted: seq<Point>, kept: seq<Point>)
    requires LastOfEach(s, sorted) && Stable(sorted, kept) && forall i | 0 <= i < |kept| :: kept[i].item > 0.0
    ensures LastOfEach(s, kept) && forall i | 0 <= i < |s| :: s[i].item > 0.0
  {
    forall i | 0 <= i < |s| ensures s[i].item > 0.0 && IsLast(s[i], kept) {
      assert IsLast(s[i], sorted);
      assert Select(sorted, s[i].timestamp) == Select(kept, s[i].timestamp);
      SelectPositive(kept, s[i].timestamp);
    }
    forall t: real ensures Select(sorted, t) == Select(kept, t) {
    }
  }

  lemma {:induction false} SelectPositive(s: seq<Point>, t: real)
    requires forall i | 0 <= i < |s| :: s[i].item > 0.0
    ensures forall i | 0 <= i < |Select(s, t)| :: Select(s, t)[i].item > 0.0
  {
    if s != [] {
      SelectPositive(s[1..], t);
    }
  }

  // ---------------------------------------------------------------- the step function

  // A value kept for some time.
  function Rect(value: real, time: real): real { value * time }

  lemma RectAdd(v: real, d: real, e: real)
    ensures Rect(v, d) + Rect(v, e) == Rect(v, d + e) && Rect(v, d) - Rect(v, e) == Rect(v, d - e)
  {
  }

  lemma RectBounds(v: real, lo: real, hi: real, d: real)
    requires lo <= v <= hi && d >= 0.0
    ensures Rect(lo, d) <= Rect(v, d) <= Rect(hi, d)
  {
  }

  // The integral, from the first point on, of the function that keeps each value until the next point.
  function Integral(s: seq<Point>, x: real): real
    requires s != []
  {
    if |s| == 1 || x <= s[1].timestamp then Rect(s[0].item, x - s[0].timestamp)
    else Rect(s[0].item, s[1].timestamp - s[0].timestamp) + Integral(s[1..], x)
  }

  // Where point `k` is in force.
  predicate InForce(s: seq<Point>, k: nat, x: real) {
    k < |s| && s[k].timestamp <= x && (k + 1 < |s| ==> x <= s[k + 1].timestamp)
  }

  lemma {:induction false} Piece(s: seq<Point>, k: nat, x: real, y: real)
    requires Ascending(s) && InForce(s, k, x) && InForce(s, k, y)
    ensures Integral(s, y) - Integral(s, x) == Rect(s[k].item, y - x)
  {
    if k == 0 {
      RectAdd(s[0].item, y - s[0].timestamp, x - s[0].timestamp);
      assert (y - s[0].timestamp) - (x - s[0].timestamp) == y - x;
    } else {
      assert s[1..][k - 1] == s[k];
      Piece(s[1..], k - 1, x, y);
      Boundary(s, x);
      Boundary(s, y);
    }
  }

  // At the second point both pieces agree.
  lemma {:induction false} Boundary(s: seq<Point>, x: real)
    requires Ascending(s) && |s| > 1 && x >= s[1].timestamp
    ensures Integral(s, x) == Rect(s[0].item, s[1].timestamp - s[0].timestamp) + Integral(s[1..], x)
  {
    if x == s[1].timestamp {
      assert s[1..][0] == s[1];
      assert |s| > 2 ==> s[1..][1] == s[2];
      assert Integral(s[1..], x) == Rect(s[1].item, x - x);
      RectAdd(s[1].item, 0.0, 0.0);
    }
  }

  ghost predicate Between(s: seq<Point>, lo: real, hi: real) { forall i | 0 <= i < |s| :: lo <= s[i].item <= hi }

  // Over any interval the integral lies between its length times the least and the greatest value.
  lemma {:induction false} IntegralBounds(s: seq<Point>, x: real, y: real, lo: real, hi: real)
    requires s != [] && Ascending(s) && Between(s, lo, hi) && s[0].timestamp <= x <= y
    ensures Rect(lo, y - x) <= Integral(s, y) - Integral(s, x) <= Rect(hi, y - x)
    decreases |s|, 1
  {
    if |s| == 1 || y <= s[1].timestamp {
      FirstPiece(s, x, y, lo, hi);
    } else {
      var m := if x <= s[1].timestamp then s[1].timestamp else x;
      RestBounds(s, m, y, lo, hi);
      if x < m {
        FirstPiece(s, x, m, lo, hi);
        RectAdd(lo, m - x, y - m);
        RectAdd(hi, m - x, y - m);
        assert (m - x) + (y - m) == y - x;
      }
    }
  }

  lemma {:induction false} FirstPiece(s: seq<Point>, x: real, y: real, lo: real, hi: real)
    requires s != [] && Ascending(s) && Between(s, lo, hi) && s[0].timestamp <= x <= y
    requires |s| == 1 || y <= s[1].timestamp
    ensures Rect(lo, y - x) <= Integral(s, y) - Integral(s, x) <= Rect(hi, y - x)
  {
    Piece(s, 0, x, y);
    RectBounds(s[0].item, lo, hi, y - x);
  }

  lemma {:induction false} RestBounds(s: seq<Point>, x: real, y: real, lo: real, hi: real)
    requires |s| > 1 && Ascending(s) && Between(s, lo, hi) && s[1].timestamp <= x <= y
    ensures Rect(lo, y - x) <= Integral(s, y) - Integral(s, x) <= Rect(hi, y - x)
    decreases |s|, 0
  {
    assert s[1..][0] == s[1];
    Boundary(s, x);
    Boundary(s, y);
    IntegralBounds(s[1..], x, y, lo, hi);
  }

  // ---------------------------------------------------------------- smoothing

  function BucketCount(points: nat, maxBuckets: nat): (n: nat)
    ensures points >= 2 ==> n == if maxBuckets <= 2 * points - 2 then maxBuckets else 2 * points - 2
  {
    Min(maxBuckets, Max(2, (points - 1) * 2))
  }

  function Width(start: real, end: real, n: nat): real
    requires n > 0
  {
    (end - start) / n as real
  }

  // The start of bucket `b` of some width.
  function Edge(start: real, width: real, b: nat): real {
    if b == 0 then start else Edge(start, width, b - 1) + width
  }

  lemma {:induction false} EdgeIs(start: real, width: real, b: nat)
    ensures Edge(start, width, b) == start + b as real * width
  {
    if b > 0 {
      EdgeIs(start, width, b - 1);
      assert b as real * width == (b - 1) as real * width + width;
    }
  }

  lemma {:induction false} WidthOf(start: real, end: real, n: nat)
    requires n > 0 && start < end
    ensures Width(start, end, n) > 0.0 && Edge(start, Width(start, end, n), n) == end
  {
    EdgeIs(start, Width(start, end, n), n);
    Whole(end - start, n as real);
  }

  lemma Whole(a: real, b: real)
    requires b != 0.0
    ensures a / b * b == a && b * (a / b) == a && (a > 0.0 && b > 0.0 ==> a / b > 0.0)
  {
  }

  lemma {:induction false} EdgesAscend(start: real, width: real, b: nat)
    requires width > 0.0
    ensures start <= Edge(start, width, b) < Edge(start, width, b + 1)
  {
    if b > 0 {
      EdgesAscend(start, width, b - 1);
    }
  }

  // The mean of the step function over a bucket, at the middle of the bucket.
  ghost predicate Averages(s: seq<Point>, p: Point, from: real, to: real)
    requires s != []
  {
    p.timestamp == from + (to - from) / 2.0 && Rect(p.item, to - from) == Integral(s, to) - Integral(s, from)
  }

  // The prepared points themselves, or the endpoints and one average for each bucket.
  ghost predicate Smoothed(s: seq<Point>, maxBuckets: int, r: seq<Point>) {
    if |s| < 4 || maxBuckets < 1 then r == s
    else
      var n, w := BucketCount(|s|, maxBuckets), BucketWidth(s, maxBuckets);
      && |r| == n + 2 && r[0] == s[0] && r[n + 1] == s[|s| - 1]
      && forall k | 1 <= k <= n :: Averages(s, r[k], Edge(s[0].timestamp, w, k - 1), Edge(s[0].timestamp, w, k))
  }

  function BucketWidth(s: seq<Point>, maxBuckets: int): real
    requires |s| >= 4 && maxBuckets >= 1
  {
    Width(s[0].timestamp, s[|s| - 1].timestamp, BucketCount(|s|, maxBuckets))
  }

  // One bucket: first to the point in force at its start, then point by point to its end.
  method OneBucket(s: seq<Point>, from: real, to: real, first: nat) returns (average: real, nextIndex: nat)
    requires Ascending(s) && from < to && 1 <= first <= |s| && s[first - 1].timestamp <= from
    ensures 1 <= nextIndex <= |s| && s[nextIndex - 1].timestamp <= to
    ensures Rect(average, to - from) == Integral(s, to) - Integral(s, from)
  {
    var eventIndex := first;
    while eventIndex < |s| && s[eventIndex].timestamp <= from
      invariant 1 <= eventIndex <= |s| && s[eventIndex - 1].timestamp <= from
    {
      eventIndex := eventIndex + 1;
    }
    var cursor, weightedTotal := from, 0.0;
    nextIndex := eventIndex;
    var bucketValue := s[eventIndex - 1].item;
    while nextIndex < |s| && s[nextIndex].timestamp < to
      invariant 1 <= nextIndex <= |s| && InForce(s, nextIndex - 1, cursor) && from <= cursor < to
      invariant bucketValue == s[nextIndex - 1].item && weightedTotal == Integral(s, cursor) - Integral(s, from)
    {
      var event := s[nextIndex];
      Piece(s, nextIndex - 1, cursor, event.timestamp);
      weightedTotal := weightedTotal + Rect(bucketValue, event.timestamp - cursor);
      cursor, bucketValue, nextIndex := event.timestamp, event.item, nextIndex + 1;
    }
    Piece(s, nextIndex - 1, cursor, to);
    weightedTotal := weightedTotal + Rect(bucketValue, to - cursor);
    average := Mean(weightedTotal, to - from);
  }

  function Mean(total: real, width: real): (mean: real)
    requires width > 0.0
    ensures Rect(mean, width) == total
  {
    Whole(total, width);
    total / width
  }

  method Smooth(s: seq<Point>, maxBuckets: int) returns (r: seq<Point>)
    requires Ascending(s)
    ensures Smoothed(s, maxBuckets, r)
  {
    if |s| < 4 || maxBuckets < 1 { return s; }
    var start, end := s[0].timestamp, s[|s| - 1].timestamp;
    var n := BucketCount(|s|, maxBuckets);
    var bucketWidth := (end - start) / n as real;
    WidthOf(start, end, n);
    r := SmoothBuckets(s, start, bucketWidth, n);
    r := r + [s[|s| - 1]];
  }

  // The even grid, computed from its start.
  method GridLine(start: real, width: real, b: nat) returns (x: real)
    ensures x == Edge(start, width, b)
  {
    x := start + b as real * width;
    EdgeIs(start, width, b);
  }

  method SmoothBuckets(s: seq<Point>, start: real, bucketWidth: real, n: nat) returns (r: seq<Point>)
    requires Ascending(s) && s != [] && start == s[0].timestamp && bucketWidth > 0.0
    ensures |r| == n + 1 && r[0] == s[0]
    ensures forall k | 1 <= k <= n :: Averages(s, r[k], Edge(start, bucketWidth, k - 1), Edge(start, bucketWidth, k))
  {
    r := [s[0]];
    var eventIndex := 1;
    for bucket := 0 to n
      invariant |r| == bucket + 1 && r[0] == s[0]
      invariant 1 <= eventIndex <= |s| && s[eventIndex - 1].timestamp <= Edge(start, bucketWidth, bucket)
      invariant forall k | 1 <= k <= bucket ::
          Averages(s, r[k], Edge(start, bucketWidth, k - 1), Edge(start, bucketWidth, k))
    {
      var from := GridLine(start, bucketWidth, bucket);
      var to := GridLine(start, bucketWidth, bucket + 1);
      EdgesAscend(start, bucketWidth, bucket);
      var average, nextIndex := OneBucket(s, from, to, eventIndex);
      eventIndex := nextIndex;
      r := r + [Stamped(from + (to - from) / 2.0, average)];
    }
  }

  /**
   Smoothing of any points: those of finite time and positive finite price, in time order,
   the last one of each moment.
   */
  method SmoothPriceSeries(points: seq<Reading>, maxBuckets: int) returns (r: seq<Point>)
    ensures exists s :: LastOfEach(s, Positive(points)) && Smoothed(s, maxBuckets, r)
  {
    var prepared := Prepare(points);
    r := Smooth(prepared, maxBuckets);
  }

  // The area under the first `k` buckets.
  function Area(r: seq<Point>, width: real, k: nat): real
    requires k < |r|
  {
    if k == 0 then 0.0 else Area(r, width, k - 1) + Rect(r[k].item, width)
  }

  lemma {:induction false} AreaSoFar(s: seq<Point>, maxBuckets: int, r: seq<Point>, k: nat)
    requires Ascending(s) && |s| >= 4 && maxBuckets >= 1 && Smoothed(s, maxBuckets, r)
    requires k <= BucketCount(|s|, maxBuckets)
    ensures Area(r, BucketWidth(s, maxBuckets), k) == Integral(s, Edge(s[0].timestamp, BucketWidth(s, maxBuckets), k))
  {
    var w, start := BucketWidth(s, maxBuckets), s[0].timestamp;
    if k == 0 {
      RectAdd(s[0].item, 0.0, 0.0);
    } else {
      AreaSoFar(s, maxBuckets, r, k - 1);
      assert Averages(s, r[k], Edge(start, w, k - 1), Edge(start, w, k));
      assert Edge(start, w, k) - Edge(start, w, k - 1) == w;
    }
  }

  /** Smoothing conserves the integral of the prices over time. */
  lemma {:induction false} SmoothingConserves(s: seq<Point>, maxBuckets: int, r: seq<Point>)
    requires Ascending(s) && |s| >= 4 && maxBuckets >= 1 && Smoothed(s, maxBuckets, r)
    ensures Area(r, BucketWidth(s, maxBuckets), |r| - 2) == Integral(s, s[|s| - 1].timestamp)
  {
    AreaSoFar(s, maxBuckets, r, |r| - 2);
    WidthOf(s[0].timestamp, s[|s| - 1].timestamp, |r| - 2);
  }

  lemma TimesLess(a: real, b: real, w: real)
    requires a < b && w > 0.0
    ensures a * w < b * w
  {
  }

  lemma MeanBounds(v: real, w: real, area: real, lo: real, hi: real)
    requires w > 0.0 && Rect(v, w) == area && Rect(lo, w) <= area <= Rect(hi, w)
    ensures lo <= v <= hi
  {
    if v < lo {
      TimesLess(v, lo, w);
    }
    if v > hi {
      TimesLess(hi, v, w);
    }
  }

  lemma AverageWithin(s: seq<Point>, p: Point, from: real, to: real, lo: real, hi: real)
    requires s != [] && Ascending(s) && Between(s, lo, hi) && s[0].timestamp <= from < to && Averages(s, p, from, to)
    ensures lo <= p.item <= hi && from < p.timestamp < to
  {
    IntegralBounds(s, from, to, lo, hi);
    MeanBounds(p.item, to - from, Integral(s, to) - Integral(s, from), lo, hi);
  }

  /** No smoothed value leaves the range of the prices, and time strictly advances from end to end. */
  lemma SmoothingStaysWithin(s: seq<Point>, maxBuckets: int, r: seq<Point>, lo: real, hi: real)
    requires Ascending(s) && |s| >= 4 && maxBuckets >= 1 && Smoothed(s, maxBuckets, r) && Between(s, lo, hi)
    ensures Between(r, lo, hi) && Ascending(r) && r[0] == s[0] && r[|r| - 1] == s[|s| - 1]
  {
    var n, w, start := BucketCount(|s|, maxBuckets), BucketWidth(s, maxBuckets), s[0].timestamp;
    WidthOf(start, s[|s| - 1].timestamp, n);
    forall k: nat | 1 <= k <= n
      ensures lo <= r[k].item <= hi && Edge(start, w, k - 1) < r[k].timestamp < Edge(start, w, k)
    {
      EdgesAscend(start, w, k - 1);
      AverageWithin(s, r[k], Edge(start, w, k - 1), Edge(start, w, k), lo, hi);
    }
    forall i | 0 < i < n + 2 ensures r[i - 1].timestamp < r[i].timestamp {
    }
    Adjacent(r);
  }

  lemma Adjacent(r: seq<Point>)
    requires forall i | 0 < i < |r| :: r[i - 1].timestamp < r[i].timestamp
    ensures Ascending(r)
  {
    forall i: nat, j: nat | i < j < |r| ensures r[i].timestamp < r[j].timestamp {
      Farther(r, i, j);
    }
  }

  lemma {:induction false} Farther(r: seq<Point>, i: nat, j: nat)
    requires i < j < |r| && forall k | 0 < k < |r| :: r[k - 1].timestamp < r[k].timestamp
    ensures r[i].timestamp < r[j].timestamp
    decreases j - i
  {
    if i + 1 < j {
      Farther(r, i, j - 1);
    }
    assert r[j - 1].timestamp < r[j].timestamp;
  }

  // ---------------------------------------------------------------- reserves

  // The last observation before the first one that is later than `t`.
  function LastAt<T>(s: seq<Stamped<T>>, t: real): Option<Stamped<T>> {
    if s == [] || s[0].timestamp > t then None
    else
      var later := LastAt(s[1..], t);
      if later.None? then Some(s[0]) else later
  }

  lemma {:induction false} LastAtIndex<T>(s: seq<Stamped<T>>, index: nat, t: real)
    requires index <= |s| && (forall i | 0 <= i < index :: s[i].timestamp <= t)
    requires index < |s| ==> s[index].timestamp > t
    ensures LastAt(s, t) == if index == 0 then None else Some(s[index - 1])
  {
    if index > 0 {
      LastAtIndex(s[1..], index - 1, t);
    }
  }

  /** On observations in order this is the latest one up to `t`, and None when all are later. */
  lemma {:induction false} LatestObservation<T>(s: seq<Stamped<T>>, t: real)
    requires Sorted(s)
    ensures LastAt(s, t).None? <==> forall i | 0 <= i < |s| :: s[i].timestamp > t
    ensures LastAt(s, t).Some? ==>
              exists i ::
                && 0 <= i < |s| && s[i] == LastAt(s, t).value && s[i].timestamp <= t
                && forall j | i < j < |s| :: s[j].timestamp > t
  {
    if s != [] && s[0].timestamp <= t {
      var rest := s[1..];
      LatestObservation(rest, t);
      if LastAt(rest, t).Some? {
        var k :| 0 <= k < |rest| && rest[k] == LastAt(rest, t).value && rest[k].timestamp <= t
          && forall j | k < j < |rest| :: rest[j].timestamp > t;
        assert s[k + 1] == rest[k] && forall j | k + 1 < j < |s| :: s[j] == rest[j - 1];
      } else {
        assert forall j | 0 < j < |s| :: s[j] == rest[j - 1];
      }
    }
  }

  method PoolReservesAt<T>(points: seq<Stamped<T>>, t: real) returns (found: Option<Stamped<T>>)
    ensures found == LastAt(points, t)
  {
    found := None;
    var i := 0;
    while i < |points|
      invariant i <= |points| && (forall k | 0 <= k < i :: points[k].timestamp <= t)
      invariant found == if i == 0 then None else Some(points[i - 1])
    {
      if points[i].timestamp > t { break; }
      found := Some(points[i]);
      i := i + 1;
    }
    LastAtIndex(points, i, t);
  }

  // The first `k` buckets: what was last observed at the close of each, at the bucket's middle.
  function Resampled<T>(observed: seq<Stamped<T>>, start: real, width: real, k: nat): seq<Stamped<T>> {
    if k == 0 then []
    else
      var last := LastAt(observed, Edge(start, width, k));
      Resampled(observed, start, width, k - 1)
      + if last.None? then [] else [Stamped(start + ((k - 1) as real + 0.5) * width, last.value.item)]
  }

  function ReservesIn<T>(observed: seq<Stamped<T>>, start: real, end: real, count: int): seq<Stamped<T>> {
    if end > start && count >= 1 then Resampled(observed, start, Width(start, end, count), count) else []
  }

  /** One pass with two pointers finds for every bucket what `PoolReservesAt` finds at its close. */
  method BucketPoolReserves<T>(points: seq<Stamped<T>>, start: real, end: real, count: int)
    returns (buckets: seq<Stamped<T>>)
    ensures exists inOrder ::
        Sorted(inOrder) && Stable(inOrder, points) && buckets == ReservesIn(inOrder, start, end, count)
  {
    var observed := SortByTime(points);
    buckets := [];
    if !(end > start) || count < 1 { return; }
    var width := (end - start) / count as real;
    WidthOf(start, end, count);
    var index := 0;
    var current: Option<Stamped<T>> := None;
    for bucket := 0 to count
      invariant index <= |observed|
      invariant forall i | 0 <= i < index :: observed[i].timestamp <= Edge(start, width, bucket)
      invariant current == if index == 0 then None else Some(observed[index - 1])
      invariant buckets == Resampled(observed, start, width, bucket)
    {
      var timestamp := start + (bucket as real + 0.5) * width;
      var close := GridLine(start, width, bucket + 1);
      EdgesAscend(start, width, bucket);
      while index < |observed| && observed[index].timestamp <= close
        invariant index <= |observed| && (forall i | 0 <= i < index :: observed[i].timestamp <= close)
        invariant current == if index == 0 then None else Some(observed[index - 1])
      {
        current := Some(observed[index]);
        index := index + 1;
      }
      LastAtIndex(observed, index, close);
      OneMoreBucket(observed, start, width, bucket);
      if current.Some? {
        buckets := buckets + [Stamped(timestamp, current.value.item)];
      }
    }
  }

  lemma OneMoreBucket<T>(observed: seq<Stamped<T>>, start: real, width: real, bucket: nat)
    ensures var last := LastAt(observed, Edge(start, width, bucket + 1));
            var before := Resampled(observed, start, width, bucket);
            Resampled(observed, start, width, bucket + 1)
              == if last.None? then before
                 else before + [Stamped(start + (bucket as real + 0.5) * width, last.value.item)]
  {
    assert Resampled(observed, start, width, bucket) + [] == Resampled(observed, start, width, bucket);
  }
}
