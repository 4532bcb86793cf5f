/** UTC-midnight equity valuations for scheduled instruments (kaupo/backtest/sampling.py). */
module DailyEquity {
  import opened Domain
  import opened MarketCalendar

  const DAY := 86400

  /** A float that may be infinite or not a number. */
  datatype Amount = Finite(v: real) | NotFinite

  /** A snapshot is stamped with its candle's open; its value is known one candle later. */
  datatype Point = Point(ts: int, value: Amount)

  datatype Reason = InsufficientReturns | InvalidEquity | Unordered | Unaligned | MissingCandles

  predicate Payable(p: Point) {
    p.value.Finite? && p.value.v > 0.0
  }

  predicate AllPayable(points: seq<Point>) {
    forall i :: 0 <= i < |points| ==> Payable(points[i])
  }

  predicate Ascending(points: seq<Point>) {
    forall i, j :: 0 <= i < j < |points| ==> points[i].ts < points[j].ts
  }

  predicate OnBoundaries(points: seq<Point>, step: int)
    requires step > 0
  {
    forall i :: 0 <= i < |points| ==> Aligned(points[i].ts, step)
  }

  /** The points whose candle has closed by `end`. */
  function ClosedBy(points: seq<Point>, step: int, end: int): seq<Point> {
    if points == [] then []
    else
      var before := ClosedBy(points[..|points| - 1], step, end);
      var p := points[|points| - 1];
      if p.ts + step <= end then before + [p] else before
  }

  /** In an ordered series the closed points are a prefix. */
  lemma {:induction false} ClosedIsPrefix(points: seq<Point>, step: int, end: int) returns (n: nat)
    requires Ascending(points)
    ensures n <= |points| && ClosedBy(points, step, end) == points[..n]
    ensures forall i :: 0 <= i < |points| ==> (points[i].ts + step <= end <==> i < n)
  {
    n := ClosedCount(points, step, end);
    PrefixClosed(points, step, end, n);
  }

  lemma {:induction false} ClosedCount(points: seq<Point>, step: int, end: int) returns (n: nat)
    requires Ascending(points)
    ensures n <= |points| && forall i :: 0 <= i < |points| ==> (points[i].ts + step <= end <==> i < n)
  {
    n := 0;
    while n < |points| && points[n].ts + step <= end
      invariant n <= |points| && forall i :: 0 <= i < n ==> points[i].ts + step <= end
    {
      n := n + 1;
    }
  }

  lemma {:induction false} PrefixClosed(points: seq<Point>, step: int, end: int, n: nat)
    requires n <= |points| && forall i :: 0 <= i < |points| ==> (points[i].ts + step <= end <==> i < n)
    ensures ClosedBy(points, step, end) == points[..n]
  {
    if points != [] {
      var last := |points| - 1;
      PrefixClosed(points[..last], step, end, if n <= last then n else last);
      if n <= last {
        assert points[..last][..n] == points[..n];
      } else {
        assert points[..last][..last] + [points[last]] == points[..n];
      }
    }
  }

  /** The first UTC midnight at or after `t`. */
  function MidnightFrom(t: int): (m: int)
    ensures t <= m < t + DAY && Aligned(m, DAY)
  {
    var day := FloorTo(t, DAY);
    FloorIsAligned(t, DAY);
    AlignedSteps(day, DAY);
    if day < t then day + DAY else day
  }

  function MidnightBefore(t: int): (m: int)
    ensures m <= t < m + DAY && Aligned(m, DAY)
  {
    FloorIsAligned(t, DAY);
    FloorTo(t, DAY)
  }

  function ValuationEnd(points: seq<Point>, step: int, valuationEnd: Option<int>): int
    requires points != []
  {
    valuationEnd.GetOr(points[|points| - 1].ts + step)
  }

  /** The candle of some point contains `t`. */
  ghost predicate Observed(points: seq<Point>, step: int, t: int) {
    exists i :: 0 <= i < |points| && points[i].ts <= t < points[i].ts + step
  }

  /** No scheduled instant of [lo, hi) lies outside every observed candle. */
  ghost predicate NoGap(s: TradingSchedule, points: seq<Point>, step: int, lo: int, hi: int)
    requires step > 0
  {
    forall t :: lo <= t < hi && OpenAt(s, Some(step), t) ==> Observed(points, step, t)
  }

  /** Why a series yields no daily returns; None when it does. */
  ghost function Verdict(s: TradingSchedule, equity: seq<Point>, step: int, valuationEnd: Option<int>): Option<Reason>
    requires step > 0
  {
    if equity == [] then Some(InsufficientReturns)
    else if !AllPayable(equity) then Some(InvalidEquity)
    else if !Ascending(equity) then Some(Unordered)
    else if !OnBoundaries(equity, step) then Some(Unaligned)
    else
      var end := ValuationEnd(equity, step, valuationEnd);
      var firstClose := equity[0].ts + step;
      if MidnightFrom(firstClose) > MidnightBefore(end) then Some(InsufficientReturns)
      else if !NoGap(s, ClosedBy(equity, step, end), step, firstClose, MidnightBefore(end)) then Some(MissingCandles)
      else None
  }

  datatype Valuation = Valuation(at: int, value: Amount)

  /** The value of the last observation closed at or before `at`. */
  ghost predicate LastClosed(equity: seq<Point>, step: int, v: Valuation) {
    exists i :: 0 <= i < |equity| && equity[i].value == v.value && equity[i].ts + step <= v.at
      && (forall j :: i < j < |equity| ==> v.at < equity[j].ts + step)
  }

  /** One valuation at every UTC midnight from the first to the last. */
  ghost predicate DailyValues(equity: seq<Point>, step: int, first: int, last: int, r: seq<Valuation>) {
    && r != [] && r[0].at == first && r[|r| - 1].at == last
    && (forall k :: 0 < k < |r| ==> r[k].at == r[k - 1].at + DAY)
    && (forall k :: 0 <= k < |r| ==> Aligned(r[k].at, DAY) && LastClosed(equity, step, r[k]))
  }

  lemma {:induction false} MeasurePositive(lo: int, hi: int, p: int -> bool)
    ensures Measure(lo, hi, p) > 0 <==> exists t :: lo <= t < hi && p(t)
    decreases hi - lo
  {
    if lo < hi {
      MeasurePositive(lo, hi - 1, p);
      if p(hi - 1) {
        assert lo <= hi - 1 < hi && p(hi - 1);
      }
    }
  }

  /** Between two consecutive observations nothing is observed, so open time there is a gap. */
  lemma GapBetween(s: TradingSchedule, points: seq<Point>, step: int, i: nat, lo: int, hi: int)
    requires step > 0 && Ascending(points) && 0 < i <= |points|
    requires lo == points[i - 1].ts + step && (i < |points| ==> hi <= points[i].ts)
    ensures OpenMeasure(s, Some(step), lo, hi) == 0 <==> NoGap(s, points, step, lo, hi)
  {
    var isOpen := OpenFn(TimetableOf(s, Some(step)));
    MeasurePositive(lo, hi, isOpen);
    forall t | lo <= t < hi ensures !Observed(points, step, t) && isOpen(t) == OpenAt(s, Some(step), t) {
      forall j | 0 <= j < |points| ensures !(points[j].ts <= t < points[j].ts + step) {
        assert j < i - 1 ==> points[j].ts < points[i - 1].ts;
        assert i < j ==> points[i].ts < points[j].ts;
      }
    }
  }

  lemma NoGapExtends(s: TradingSchedule, points: seq<Point>, step: int, from: int, i: nat, last: int)
    requires step > 0 && 0 <= i < |points| && NoGap(s, points, step, from, MinOf(points[i].ts, last))
    ensures NoGap(s, points, step, from, MinOf(points[i].ts + step, last))
  {
    forall t | from <= t < MinOf(points[i].ts + step, last) && OpenAt(s, Some(step), t)
      ensures Observed(points, step, t)
    {
      assert t >= points[i].ts ==> points[i].ts <= t < points[i].ts + step;
    }
  }

  lemma NoGapJoins(s: TradingSchedule, points: seq<Point>, step: int, lo: int, mid: int, hi: int)
    requires step > 0 && lo <= mid && NoGap(s, points, step, lo, MinOf(mid, hi))
    ensures NoGap(s, points, step, lo, hi) <==> NoGap(s, points, step, mid, hi)
  {}

  lemma NoGapShrinks(s: TradingSchedule, points: seq<Point>, step: int, lo: int, mid: int, hi: int, end: int)
    requires step > 0 && lo <= mid && hi <= end && NoGap(s, points, step, lo, end)
    ensures NoGap(s, points, step, mid, hi)
  {}

  /** Whether every scheduled candle from the first close to the last boundary was observed. */
  method Supported(s: TradingSchedule, points: seq<Point>, step: int, last: int) returns (ok: bool)
    requires step > 0 && Lawful(s) && points != [] && Ascending(points) && OnBoundaries(points, step)
    ensures ok <==> NoGap(s, points, step, points[0].ts + step, last)
  {
    var firstClose := points[0].ts + step;
    var previousClose := firstClose;
    var i := 1;
    while i < |points|
      invariant 1 <= i <= |points| && previousClose == points[i - 1].ts + step && firstClose <= previousClose
      invariant NoGap(s, points, step, firstClose, MinOf(previousClose, last))
    {
      var opens := points[i].ts;
      AlignedApart(points[i - 1].ts, opens, step);
      var elapsed := OpenElapsed(s, previousClose, MinOf(opens, last), Some(step));
      GapBetween(s, points, step, i, previousClose, MinOf(opens, last));
      if elapsed != 0 {
        if NoGap(s, points, step, firstClose, last) {
          NoGapShrinks(s, points, step, firstClose, previousClose, MinOf(opens, last), last);
        }
        return false;
      }
      NoGapJoins(s, points, step, firstClose, previousClose, MinOf(opens, last));
      NoGapExtends(s, points, step, firstClose, i, last);
      previousClose := opens + step;
      i := i + 1;
      if previousClose >= last {
        break;
      }
    }
    var elapsed := OpenElapsed(s, previousClose, last, Some(step));
    if previousClose < last {
      GapBetween(s, points, step, i, previousClose, last);
      NoGapJoins(s, points, step, firstClose, previousClose, last);
    }
    ok := elapsed == 0;
  }

  /** The valuations taken so far, when the next boundary is `boundary`. */
  ghost predicate Taken(equity: seq<Point>, step: int, first: int, boundary: int, result: seq<Valuation>) {
    && Aligned(boundary, DAY)
    && (if result == [] then boundary == first else DailyValues(equity, step, first, boundary - DAY, result))
  }

  lemma TakeOne(equity: seq<Point>, step: int, first: int, boundary: int, result: seq<Valuation>, v: Valuation)
    requires Taken(equity, step, first, boundary, result) && v.at == boundary && LastClosed(equity, step, v)
    ensures Taken(equity, step, first, boundary + DAY, result + [v])
  {
    AlignedSteps(boundary, DAY);
  }

  /** The valuation loop. */
  method Valuations(ghost equity: seq<Point>, step: int, points: seq<Point>, ghost n: nat, first: int, last: int)
    returns (result: seq<Valuation>)
    requires step > 0 && Ascending(equity) && n <= |equity| && points == equity[..n] && points != []
    requires forall i :: n <= i < |equity| ==> last < equity[i].ts + step
    requires points[0].ts + step <= first <= last && Aligned(first, DAY) && Aligned(last, DAY)
    ensures DailyValues(equity, step, first, last, result)
  {
    result := [];
    var index := 0;
    var boundary := first;
    while boundary <= last
      invariant 0 <= index < |points| && points[index].ts + step <= boundary
      invariant boundary <= last + DAY
      invariant Taken(equity, step, first, boundary, result)
      decreases last - boundary
    {
      while index + 1 < |points| && points[index + 1].ts + step <= boundary
        invariant 0 <= index < |points| && points[index].ts + step <= boundary
      {
        index := index + 1;
      }
      var v := Valuation(boundary, points[index].value);
      LastClosedAt(equity, step, n, index, v, last);
      TakeOne(equity, step, first, boundary, result, v);
      result := result + [v];
      if boundary < last {
        AlignedApart(boundary, last, DAY);
      }
      boundary := boundary + DAY;
    }
    AlignedApart(last, boundary, DAY);
  }

  lemma LastClosedAt(equity: seq<Point>, step: int, n: nat, index: nat, v: Valuation, last: int)
    requires Ascending(equity) && index < n <= |equity| && v.at <= last && v.value == equity[index].value
    requires equity[index].ts + step <= v.at && (index + 1 < n ==> v.at < equity[index + 1].ts + step)
    requires forall i :: n <= i < |equity| ==> last < equity[i].ts + step
    ensures LastClosed(equity, step, v)
  {
    forall j | index < j < |equity| ensures v.at < equity[j].ts + step {
      if index + 1 < j < n {
        assert equity[index + 1].ts < equity[j].ts;
      }
    }
  }

  /** Carry closing valuations across closures, never across missing bars. The reason code is
      exactly the first defect, and without one there is a valuation at every midnight. */
  method Sample(s: TradingSchedule, equity: seq<Point>, step: int, valuationEnd: Option<int>)
    returns (r: Result<seq<Valuation>, Reason>)
    requires step > 0 && Lawful(s)
    ensures r.Failure? <==> Verdict(s, equity, step, valuationEnd).Some?
    ensures r.Failure? ==> Verdict(s, equity, step, valuationEnd) == Some(r.error)
    ensures r.Success? ==> DailyValues(equity, step, MidnightFrom(equity[0].ts + step),
                                       MidnightBefore(ValuationEnd(equity, step, valuationEnd)), r.value)
  {
    if equity == [] {
      return Failure(InsufficientReturns);
    }
    var defect := Malformed(equity, step);
    if defect.Some? {
      return Failure(defect.value);
    }
    var end := ValuationEnd(equity, step, valuationEnd);
    var points := ClosedBy(equity, step, end);
    ghost var n := ClosedIsPrefix(equity, step, end);
    if points == [] {
      return Failure(InsufficientReturns);
    }
    var first, last := MidnightFrom(points[0].ts + step), MidnightBefore(end);
    if first > last {
      return Failure(InsufficientReturns);
    }
    var supported := Supported(s, points, step, last);
    if !supported {
      return Failure(MissingCandles);
    }
    var values := Valuations(equity, step, points, n, first, last);
    r := Success(values);
  }

  /** The first way a series is malformed. */
  method Malformed(equity: seq<Point>, step: int) returns (r: Option<Reason>)
    requires step > 0
    ensures r == if !AllPayable(equity) then Some(InvalidEquity)
                 else if !Ascending(equity) then Some(Unordered)
                 else if !OnBoundaries(equity, step) then Some(Unaligned)
                 else None
  {
    if exists i :: 0 <= i < |equity| && !Payable(equity[i]) {
      return Some(InvalidEquity);
    }
    if exists i :: 0 <= i < |equity| - 1 && equity[i + 1].ts <= equity[i].ts {
      return Some(Unordered);
    }
    PairwiseAscends(equity);
    if exists i :: 0 <= i < |equity| && FloorTo(equity[i].ts, step) != equity[i].ts {
      return Some(Unaligned);
    }
    r := None;
  }

  lemma PairwiseAscends(points: seq<Point>)
    requires forall i :: 0 <= i < |points| - 1 ==> points[i].ts < points[i + 1].ts
    ensures Ascending(points)
  {
    for j := 0 to |points|
      invariant forall i, k :: 0 <= i < k < j ==> points[i].ts < points[k].ts
    {
      if 0 < j {
        assert points[j - 1].ts < points[j - 1 + 1].ts;
      }
    }
  }

  /** Observation i is the last one closed by `at`. */
  predicate IsLastBy(equity: seq<Point>, step: int, at: int, i: nat)
    requires i < |equity|
  {
    equity[i].ts + step <= at && (i + 1 < |equity| ==> at < equity[i + 1].ts + step)
  }

  /** Every daily return of an accepted series exists: the valuations are finite and positive, one per
      UTC midnight, and each is the value of the last observation closed by then. */
  lemma ReturnsExist(s: TradingSchedule, equity: seq<Point>, step: int, valuationEnd: Option<int>, r: seq<Valuation>,
                     k: nat)
    requires step > 0 && Verdict(s, equity, step, valuationEnd).None?
    requires DailyValues(equity, step, MidnightFrom(equity[0].ts + step),
                         MidnightBefore(ValuationEnd(equity, step, valuationEnd)), r)
    requires k < |r|
    ensures r[k].value.Finite? && 0.0 < r[k].value.v && r[k].at % 86400 == 0
    ensures forall i :: 0 <= i < |equity| && IsLastBy(equity, step, r[k].at, i) ==> r[k].value == equity[i].value
  {
    var n :| 0 <= n < |equity| && equity[n].value == r[k].value && equity[n].ts + step <= r[k].at
             && forall j :: n < j < |equity| ==> r[k].at < equity[j].ts + step;
    assert Payable(equity[n]);
    FloorToDivides(r[k].at, DAY);
    forall i | 0 <= i < |equity| && IsLastBy(equity, step, r[k].at, i) ensures i == n {
      if i < n {
        assert false;
      }
    }
  }

  /** The valuations reach from the first midnight at or after the first close to the last one at or
      before the end, which is the last close unless it is given. */
  lemma ValuationsReach(equity: seq<Point>, step: int, valuationEnd: Option<int>, r: seq<Valuation>)
    requires equity != []
    requires DailyValues(equity, step, MidnightFrom(equity[0].ts + step),
                         MidnightBefore(ValuationEnd(equity, step, valuationEnd)), r)
    ensures r[0].at - DAY < equity[0].ts + step <= r[0].at
    ensures valuationEnd.None? ==> r[|r| - 1].at <= equity[|equity| - 1].ts + step < r[|r| - 1].at + DAY
    ensures valuationEnd.Some? ==> r[|r| - 1].at <= valuationEnd.value < r[|r| - 1].at + DAY
  {}

  ghost predicate Worthless(equity: seq<Point>) {
    exists p :: p in equity && !(p.value.Finite? && p.value.v > 0.0)
  }

  ghost predicate Backwards(equity: seq<Point>) {
    exists i :: 0 < i < |equity| && equity[i].ts <= equity[i - 1].ts
  }

  ghost predicate OffGrid(equity: seq<Point>, step: int)
    requires step > 0
  {
    exists p :: p in equity && p.ts % step != 0
  }

  /** Which defect the points themselves have, first things first. */
  lemma DefectsAre(s: TradingSchedule, equity: seq<Point>, step: int, valuationEnd: Option<int>)
    requires step > 0
    ensures var v := Verdict(s, equity, step, valuationEnd);
            && (v == Some(InvalidEquity) <==> Worthless(equity))
            && (v == Some(Unordered) <==> !Worthless(equity) && Backwards(equity))
            && (v == Some(Unaligned) <==> !Worthless(equity) && !Backwards(equity) && OffGrid(equity, step))
            && (v == None ==> equity != [] && !Worthless(equity) && !Backwards(equity) && !OffGrid(equity, step))
  {
    WorthlessMeans(equity);
    BackwardsMeans(equity);
    OffGridMeans(equity, step);
  }

  lemma WorthlessMeans(equity: seq<Point>)
    ensures Worthless(equity) <==> !AllPayable(equity)
  {
    assert forall i :: 0 <= i < |equity| ==> equity[i] in equity;
  }

  lemma BackwardsMeans(equity: seq<Point>)
    ensures Backwards(equity) <==> !Ascending(equity)
  {
    if !Backwards(equity) {
      forall i | 0 <= i < |equity| - 1 ensures equity[i].ts < equity[i + 1].ts {
        assert 0 < i + 1 < |equity| && equity[i + 1 - 1].ts == equity[i].ts;
      }
      PairwiseAscends(equity);
    }
  }

  lemma OffGridMeans(equity: seq<Point>, step: int)
    requires step > 0
    ensures OffGrid(equity, step) <==> !OnBoundaries(equity, step)
  {
    forall i | 0 <= i < |equity|
      ensures equity[i] in equity && (Aligned(equity[i].ts, step) <==> equity[i].ts % step == 0)
    {
      AlignedIsDivisible(equity[i].ts, step);
    }
  }

  /** When the candle divides the day (every timeframe does) the support condition says that
      every bucket with open time between the bounds is itself an observation. */
  lemma NoGapMeansEveryBucket(s: TradingSchedule, points: seq<Point>, step: int, lo: int, hi: int)
    requires step > 0 && Lawful(s) && OnBoundaries(points, step) && Aligned(lo, step) && Aligned(hi, step)
    ensures NoGap(s, points, step, lo, hi)
       <==> forall b :: b in OpenBuckets(s, step, lo, hi) ==> exists i :: 0 <= i < |points| && points[i].ts == b
  {
    if NoGap(s, points, step, lo, hi) {
      forall b | b in OpenBuckets(s, step, lo, hi) ensures exists i :: 0 <= i < |points| && points[i].ts == b {
        BucketOpens(s, step, b, b);
        var i :| 0 <= i < |points| && points[i].ts <= b < points[i].ts + step;
        if points[i].ts < b {
          AlignedApart(points[i].ts, b, step);
        }
      }
    }
    if forall b :: b in OpenBuckets(s, step, lo, hi) ==> exists i :: 0 <= i < |points| && points[i].ts == b {
      forall t | lo <= t < hi && OpenAt(s, Some(step), t) ensures Observed(points, step, t) {
        var b := FloorTo(t, step);
        FloorIsAligned(t, step);
        FloorMonotone(lo, t, step);
        BucketOpens(s, step, b, t);
        assert b in OpenBuckets(s, step, lo, hi);
        var i :| 0 <= i < |points| && points[i].ts == b;
      }
    }
  }

  lemma BucketOpens(s: TradingSchedule, step: int, b: int, t: int)
    requires step > 0 && Lawful(s) && Aligned(b, step) && b <= t < b + step
    ensures OpenAt(s, Some(step), t) <==> OpenMeasure(s, None, b, b + step) > 0
  {
    ExpandedOpen(s, step, b, t);
    TouchedIsOpenTime(TimetableOf(s, None), step, b);
  }
}
