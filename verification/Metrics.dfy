// Aggregation of vulnerability histories into one point per UTC day.
module Metrics {
  import opened Text

  datatype Counts = Counts(critical: int, high: int, medium: int, low: int)

  datatype Metric = Metric(lastOccurrence: Option<int>, counts: Counts)

  datatype Point = Point(dateMs: int, counts: Counts)

  const ZERO := Counts(0, 0, 0, 0)

  function Plus(a: Counts, b: Counts): Counts {
    Counts(a.critical + b.critical, a.high + b.high, a.medium + b.medium, a.low + b.low)
  }

  const DAY: int := 24 * 60 * 60 * 1000

  // Date.UTC of the UTC year, month and day of a time stamp.
  function DayOf(ms: int): (day: int)
    ensures day % DAY == 0 && day <= ms < day + DAY
  {
    ms - ms % DAY
  }

  // ---- The loop ----

  function Add(buckets: map<int, Counts>, m: Metric): map<int, Counts> {
    match m.lastOccurrence
    case None => buckets
    case Some(ms) =>
      buckets[DayOf(ms) := if DayOf(ms) in buckets then Plus(buckets[DayOf(ms)], m.counts) else m.counts]
  }

  function Buckets(metrics: seq<Metric>): map<int, Counts> {
    if metrics == [] then map[] else Add(Buckets(metrics[..|metrics| - 1]), metrics[|metrics| - 1])
  }

  function Flat(histories: seq<seq<Metric>>): seq<Metric> {
    if histories == [] then [] else Flat(histories[..|histories| - 1]) + histories[|histories| - 1]
  }

  predicate Least(x: int, s: set<int>) {
    x in s && forall y | y in s :: x <= y
  }

  lemma {:induction false} Inhabited(s: set<int>)
    requires |s| > 0
    ensures exists x :: x in s
  {
    assert (forall x :: x !in s) ==> s == {};
  }

  lemma {:induction false} FindLeast(s: set<int>) returns (least: int)
    requires |s| > 0
    ensures Least(least, s)
    decreases |s|
  {
    Inhabited(s);
    var x :| x in s;
    var rest := s - {x};
    if |rest| == 0 {
      least := x;
      assert s == {x};
    } else {
      var m := FindLeast(rest);
      least := if m < x then m else x;
      forall y | y in s
        ensures least <= y
      {
        assert y == x || y in rest;
      }
    }
  }

  lemma {:induction false} LeastExists(s: set<int>)
    requires s != {}
    ensures exists x :: Least(x, s)
  {
    assert |s| > 0;
    var _ := FindLeast(s);
  }

  // sort((a, b) => a[0] - b[0]) of distinct keys.
  function Ascending(days: set<int>): (r: seq<int>)
    ensures forall i, j | 0 <= i < j < |r| :: r[i] < r[j]
    ensures forall d :: d in r <==> d in days
    decreases |days|
  {
    if days == {} then []
    else
      LeastExists(days);
      var least :| Least(least, days);
      [least] + Ascending(days - {least})
  }

  function Points(metrics: seq<Metric>): seq<Point> {
    var buckets := Buckets(metrics);
    var days := Ascending(buckets.Keys);
    seq(|days|, i requires 0 <= i < |days| => Point(days[i], buckets[days[i]]))
  }

  method AggregateHistories(histories: seq<seq<Metric>>) returns (points: seq<Point>)
    ensures points == Points(Flat(histories))
  {
    var buckets: map<int, Counts> := map[];
    var i := 0;
    while i < |histories|
      invariant 0 <= i <= |histories|
      invariant buckets == Buckets(Flat(histories[..i]))
    {
      var metrics := histories[i];
      ghost var before := Flat(histories[..i]);
      var j := 0;
      assert before + metrics[..0] == before;
      while j < |metrics|
        invariant 0 <= j <= |metrics|
        invariant buckets == Buckets(before + metrics[..j])
      {
        var m := metrics[j];
        assert (before + metrics[..j + 1])[..|before| + j] == before + metrics[..j];
        if m.lastOccurrence.Some? {
          var dayMs := DayOf(m.lastOccurrence.value);
          if dayMs in buckets {
            buckets := buckets[dayMs := Plus(buckets[dayMs], m.counts)];
          } else {
            buckets := buckets[dayMs := m.counts];
          }
        }
        j := j + 1;
      }
      assert before + metrics[..j] == Flat(histories[..i + 1]) by {
        assert histories[..i + 1][..i] == histories[..i] && metrics[..j] == metrics;
      }
      i := i + 1;
    }
    assert histories[..i] == histories;
    var sorted := Ascending(buckets.Keys);
    points := seq(|sorted|, k requires 0 <= k < |sorted| => Point(sorted[k], buckets[sorted[k]]));
  }

  lemma {:induction false} PlusLaws(a: Counts, b: Counts, c: Counts, d: Counts)
    ensures Plus(a, ZERO) == a && Plus(ZERO, a) == a
    ensures Plus(Plus(a, b), c) == Plus(Plus(a, c), b)
    ensures Plus(Plus(a, b), Plus(c, d)) == Plus(Plus(a, c), Plus(b, d))
  {
  }

  // ---- What a point says ----

  predicate OnDay(m: Metric, day: int) {
    m.lastOccurrence.Some? && DayOf(m.lastOccurrence.value) == day
  }

  function Counted(m: Metric, day: int): Counts {
    if OnDay(m, day) then m.counts else ZERO
  }

  // The sum of the metrics of one day.
  function DayTotal(metrics: seq<Metric>, day: int): Counts {
    if metrics == [] then ZERO
    else Plus(DayTotal(metrics[..|metrics| - 1], day), Counted(metrics[|metrics| - 1], day))
  }

  predicate Occurs(metrics: seq<Metric>, day: int) {
    exists k :: 0 <= k < |metrics| && OnDay(metrics[k], day)
  }

  lemma {:induction false} OccursNow(metrics: seq<Metric>, day: int)
    requires metrics != []
    ensures Occurs(metrics, day) <==>
            Occurs(metrics[..|metrics| - 1], day) || OnDay(metrics[|metrics| - 1], day)
  {
    var rest := metrics[..|metrics| - 1];
    if Occurs(rest, day) {
      var k :| 0 <= k < |rest| && OnDay(rest[k], day);
      assert OnDay(metrics[k], day);
    }
    if Occurs(metrics, day) {
      var k :| 0 <= k < |metrics| && OnDay(metrics[k], day);
      assert k < |rest| ==> OnDay(rest[k], day);
    }
    if OnDay(metrics[|metrics| - 1], day) {
      assert OnDay(metrics[|metrics| - 1], day);
    }
  }

  function Held(buckets: map<int, Counts>, day: int): Counts {
    if day in buckets then buckets[day] else ZERO
  }

  lemma {:induction false} AddIs(buckets: map<int, Counts>, m: Metric, day: int)
    ensures day in Add(buckets, m) <==> day in buckets || OnDay(m, day)
    ensures Held(Add(buckets, m), day) == Plus(Held(buckets, day), Counted(m, day))
  {
    PlusLaws(m.counts, ZERO, ZERO, ZERO);
    PlusLaws(Held(buckets, day), ZERO, ZERO, ZERO);
    hide Plus, DayOf;
  }

  lemma {:induction false} BucketsAre(metrics: seq<Metric>, day: int)
    ensures day in Buckets(metrics) <==> Occurs(metrics, day)
    ensures DayTotal(metrics, day) == Held(Buckets(metrics), day)
  {
    if metrics != [] {
      var rest, m := metrics[..|metrics| - 1], metrics[|metrics| - 1];
      BucketsAre(rest, day);
      OccursNow(metrics, day);
      AddIs(Buckets(rest), m, day);
      hide Plus, OnDay, Counted, Occurs, Add, Held;
    }
  }

  // One point for each day that occurs, in order, with the sums of that day.
  lemma {:induction false} PointsAre(metrics: seq<Metric>)
    ensures var points := Points(metrics);
            && (forall i, j | 0 <= i < j < |points| :: points[i].dateMs < points[j].dateMs)
            && (forall i | 0 <= i < |points| ::
                  && points[i].dateMs % DAY == 0
                  && Occurs(metrics, points[i].dateMs)
                  && points[i].counts == DayTotal(metrics, points[i].dateMs))
            && (forall k | 0 <= k < |metrics| && metrics[k].lastOccurrence.Some? ::
                  exists i :: 0 <= i < |points| && points[i].dateMs == DayOf(metrics[k].lastOccurrence.value))
  {
    var points := Points(metrics);
    var days := Ascending(Buckets(metrics).Keys);
    forall i | 0 <= i < |points|
      ensures points[i].dateMs % DAY == 0 && Occurs(metrics, points[i].dateMs)
      ensures points[i].counts == DayTotal(metrics, points[i].dateMs)
    {
      assert days[i] in days;
      BucketsAre(metrics, days[i]);
    }
    forall k | 0 <= k < |metrics| && metrics[k].lastOccurrence.Some?
      ensures exists i :: 0 <= i < |points| && points[i].dateMs == DayOf(metrics[k].lastOccurrence.value)
    {
      var day := DayOf(metrics[k].lastOccurrence.value);
      BucketsAre(metrics, day);
      assert day in days;
      var i :| 0 <= i < |days| && days[i] == day;
      assert points[i].dateMs == day;
    }
  }

  // ---- Nothing is lost and nothing counted twice ----

  // The sum of all metrics that carry a time.
  function Grand(metrics: seq<Metric>): Counts {
    if metrics == [] then ZERO
    else
      var m := metrics[|metrics| - 1];
      Plus(Grand(metrics[..|metrics| - 1]), if m.lastOccurrence.Some? then m.counts else ZERO)
  }

  function SumPoints(points: seq<Point>): Counts {
    if points == [] then ZERO else Plus(points[0].counts, SumPoints(points[1..]))
  }

  function SumDays(metrics: seq<Metric>, days: seq<int>): Counts {
    if days == [] then ZERO else Plus(DayTotal(metrics, days[0]), SumDays(metrics, days[1..]))
  }

  function SumCounted(m: Metric, days: seq<int>): Counts {
    if days == [] then ZERO else Plus(Counted(m, days[0]), SumCounted(m, days[1..]))
  }

  predicate Increasing(days: seq<int>) {
    forall i, j | 0 <= i < j < |days| :: days[i] < days[j]
  }

  lemma {:induction false} CountedOnce(m: Metric, days: seq<int>)
    requires Increasing(days)
    ensures SumCounted(m, days) ==
            if m.lastOccurrence.Some? && DayOf(m.lastOccurrence.value) in days then m.counts else ZERO
  {
    hide Plus, DayOf;
    if days != [] {
      CountedOnce(m, days[1..]);
      assert days == [days[0]] + days[1..];
      assert days[0] !in days[1..];
      PlusLaws(m.counts, ZERO, ZERO, ZERO);
      PlusLaws(ZERO, ZERO, ZERO, ZERO);
    }
  }

  lemma {:induction false} OneMore(metrics: seq<Metric>, days: seq<int>)
    requires metrics != []
    ensures SumDays(metrics, days)
         == Plus(SumDays(metrics[..|metrics| - 1], days), SumCounted(metrics[|metrics| - 1], days))
  {
    hide Plus;
    var n := |metrics| - 1;
    if days == [] {
      PlusLaws(ZERO, ZERO, ZERO, ZERO);
    } else {
      OneMore(metrics, days[1..]);
      PlusLaws(DayTotal(metrics[..n], days[0]), Counted(metrics[n], days[0]),
               SumDays(metrics[..n], days[1..]), SumCounted(metrics[n], days[1..]));
      hide Counted, DayOf;
    }
  }

  lemma {:induction false} NoMetrics(days: seq<int>)
    ensures SumDays([], days) == ZERO
  {
    if days != [] {
      NoMetrics(days[1..]);
    }
  }

  lemma {:induction false} SumDaysIs(metrics: seq<Metric>, days: seq<int>)
    requires Increasing(days)
    requires forall k | 0 <= k < |metrics| && metrics[k].lastOccurrence.Some? ::
               DayOf(metrics[k].lastOccurrence.value) in days
    ensures SumDays(metrics, days) == Grand(metrics)
  {
    if metrics == [] {
      NoMetrics(days);
    } else {
      SumDaysIs(metrics[..|metrics| - 1], days);
      OneMore(metrics, days);
      CountedOnce(metrics[|metrics| - 1], days);
    }
  }

  lemma {:induction false} SumPointsIs(metrics: seq<Metric>, points: seq<Point>, days: seq<int>)
    requires |points| == |days|
    requires forall i | 0 <= i < |days| :: points[i] == Point(days[i], DayTotal(metrics, days[i]))
    ensures SumPoints(points) == SumDays(metrics, days)
  {
    if days != [] {
      SumPointsIs(metrics, points[1..], days[1..]);
    }
  }

  lemma {:induction false} Conserved(metrics: seq<Metric>)
    ensures SumPoints(Points(metrics)) == Grand(metrics)
  {
    var points := Points(metrics);
    var days := Ascending(Buckets(metrics).Keys);
    PointsAre(metrics);
    forall k | 0 <= k < |metrics| && metrics[k].lastOccurrence.Some?
      ensures DayOf(metrics[k].lastOccurrence.value) in days
    {
      var i :| 0 <= i < |points| && points[i].dateMs == DayOf(metrics[k].lastOccurrence.value);
      assert days[i] in days;
    }
    SumPointsIs(metrics, points, days);
    SumDaysIs(metrics, days);
  }

  // ---- The order of projects and of entries does not matter ----

  lemma {:induction false} RemoveOne(metrics: seq<Metric>, k: nat, day: int)
    requires k < |metrics|
    ensures DayTotal(metrics, day) == Plus(DayTotal(metrics[..k] + metrics[k + 1..], day), Counted(metrics[k], day))
  {
    hide Plus, Counted, DayOf;
    var n := |metrics| - 1;
    if k == n {
      assert metrics[..k] + metrics[k + 1..] == metrics[..n];
    } else {
      RemoveOne(metrics[..n], k, day);
      var less := metrics[..k] + metrics[k + 1..];
      assert less[..n - 1] == metrics[..n][..k] + metrics[..n][k + 1..];
      assert less[n - 1] == metrics[n];
      PlusLaws(DayTotal(less[..n - 1], day), Counted(metrics[k], day), Counted(metrics[n], day), ZERO);
    }
  }

  lemma {:induction false} WithoutOne(a: seq<Metric>, k: nat)
    requires k < |a|
    ensures multiset(a[..k] + a[k + 1..]) == multiset(a) - multiset{a[k]}
  {
    assert a == a[..k] + [a[k]] + a[k + 1..];
  }

  lemma {:induction false} TotalOfMultiset(a: seq<Metric>, b: seq<Metric>, day: int)
    requires multiset(a) == multiset(b)
    ensures DayTotal(a, day) == DayTotal(b, day)
    decreases |a|
  {
    if a == [] {
      assert |b| == |multiset(b)| == 0;
    } else {
      var m := a[|a| - 1];
      assert m in multiset(b);
      var k :| 0 <= k < |b| && b[k] == m;
      var less := b[..k] + b[k + 1..];
      WithoutOne(a, |a| - 1);
      WithoutOne(b, k);
      assert a[..|a| - 1] + a[|a|..] == a[..|a| - 1];
      TotalOfMultiset(a[..|a| - 1], less, day);
      RemoveOne(b, k, day);
    }
  }

  lemma {:induction false} OrderDoesNotMatter(a: seq<Metric>, b: seq<Metric>)
    requires multiset(a) == multiset(b)
    ensures Points(a) == Points(b)
  {
    forall day
      ensures day in Buckets(a) <==> day in Buckets(b)
      ensures day in Buckets(a) ==> Buckets(a)[day] == Buckets(b)[day]
    {
      BucketsAre(a, day);
      BucketsAre(b, day);
      TotalOfMultiset(a, b, day);
      if Occurs(a, day) {
        SameDays(a, b, day);
      }
      if Occurs(b, day) {
        SameDays(b, a, day);
      }
    }
    assert Buckets(a) == Buckets(b);
  }

  lemma {:induction false} SameDays(a: seq<Metric>, b: seq<Metric>, day: int)
    requires multiset(a) == multiset(b) && Occurs(a, day)
    ensures Occurs(b, day)
  {
    var k :| 0 <= k < |a| && OnDay(a[k], day);
    assert a[k] in multiset(b);
    var j :| 0 <= j < |b| && b[j] == a[k];
  }

  // ---- Each severity in integers ----

  datatype Severity = Critical | High | Medium | Low

  function Amount(c: Counts, of: Severity): int {
    match of
    case Critical => c.critical
    case High => c.high
    case Medium => c.medium
    case Low => c.low
  }

  // The integer sum of one severity over the entries of a day.
  function DaySum(metrics: seq<Metric>, day: int, of: Severity): int {
    if metrics == [] then 0
    else
      var m := metrics[0];
      (if m.lastOccurrence.Some? && DayOf(m.lastOccurrence.value) == day then Amount(m.counts, of) else 0)
      + DaySum(metrics[1..], day, of)
  }

  // The same over all entries that carry a time.
  function TotalSum(metrics: seq<Metric>, of: Severity): int {
    if metrics == [] then 0
    else (if metrics[0].lastOccurrence.Some? then Amount(metrics[0].counts, of) else 0) + TotalSum(metrics[1..], of)
  }

  function PointsSum(points: seq<Point>, of: Severity): int {
    if points == [] then 0 else Amount(points[0].counts, of) + PointsSum(points[1..], of)
  }

  lemma {:induction false} AmountOfPlus(a: Counts, b: Counts, of: Severity)
    ensures Amount(Plus(a, b), of) == Amount(a, of) + Amount(b, of) && Amount(ZERO, of) == 0
  {
  }

  lemma {:induction false} DaySumLast(metrics: seq<Metric>, day: int, of: Severity)
    requires metrics != []
    ensures DaySum(metrics, day, of)
         == DaySum(metrics[..|metrics| - 1], day, of) + Amount(Counted(metrics[|metrics| - 1], day), of)
  {
    hide DayOf;
    var n := |metrics| - 1;
    if n > 0 {
      DaySumLast(metrics[1..], day, of);
      assert metrics[1..][..n - 1] == metrics[..n][1..];
    }
  }

  lemma {:induction false} TotalSumLast(metrics: seq<Metric>, of: Severity)
    requires metrics != []
    ensures TotalSum(metrics, of) == TotalSum(metrics[..|metrics| - 1], of)
         + if metrics[|metrics| - 1].lastOccurrence.Some? then Amount(metrics[|metrics| - 1].counts, of) else 0
  {
    var n := |metrics| - 1;
    if n > 0 {
      TotalSumLast(metrics[1..], of);
      assert metrics[1..][..n - 1] == metrics[..n][1..];
    }
  }

  lemma {:induction false} DayTotalIs(metrics: seq<Metric>, day: int, of: Severity)
    ensures Amount(DayTotal(metrics, day), of) == DaySum(metrics, day, of)
  {
    hide Plus, Counted, DayOf, Amount;
    AmountOfPlus(ZERO, ZERO, of);
    if metrics != [] {
      var n := |metrics| - 1;
      DayTotalIs(metrics[..n], day, of);
      DaySumLast(metrics, day, of);
      AmountOfPlus(DayTotal(metrics[..n], day), Counted(metrics[n], day), of);
    }
  }

  lemma {:induction false} GrandIs(metrics: seq<Metric>, of: Severity)
    ensures Amount(Grand(metrics), of) == TotalSum(metrics, of)
  {
    hide Plus, Amount;
    AmountOfPlus(ZERO, ZERO, of);
    if metrics != [] {
      var n := |metrics| - 1;
      GrandIs(metrics[..n], of);
      TotalSumLast(metrics, of);
      AmountOfPlus(Grand(metrics[..n]), if metrics[n].lastOccurrence.Some? then metrics[n].counts else ZERO, of);
    }
  }

  lemma {:induction false} PointsSumIs(points: seq<Point>, of: Severity)
    ensures Amount(SumPoints(points), of) == PointsSum(points, of)
  {
    hide Plus, Amount;
    AmountOfPlus(ZERO, ZERO, of);
    if points != [] {
      PointsSumIs(points[1..], of);
      AmountOfPlus(points[0].counts, SumPoints(points[1..]), of);
    }
  }

  // Every point shows, for each severity, the integer sum over the entries of its day.
  lemma {:induction false} PointsShowSums(metrics: seq<Metric>, i: nat, of: Severity)
    requires i < |Points(metrics)|
    ensures Amount(Points(metrics)[i].counts, of) == DaySum(metrics, Points(metrics)[i].dateMs, of)
  {
    PointsAre(metrics);
    DayTotalIs(metrics, Points(metrics)[i].dateMs, of);
    hide Points, DayTotal, DaySum, Amount;
  }

  // Over all points that is the integer sum over all entries that carry a time.
  lemma {:induction false} SumsConserved(metrics: seq<Metric>, of: Severity)
    ensures PointsSum(Points(metrics), of) == TotalSum(metrics, of)
  {
    hide Points, SumPoints, Grand, PointsSum, TotalSum, Amount;
    Conserved(metrics);
    PointsSumIs(Points(metrics), of);
    GrandIs(metrics, of);
  }
}
