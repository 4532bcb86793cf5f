/** Explicit local trading hours (kaupo/market_calendar.py).

    Instants are whole ticks of UTC, days are days since the epoch. The time-zone
    database enters only as the two functions of a Zone. */
module MarketCalendar {
  import opened Domain

  /** One local day's open interval, in minutes after midnight; the end is exclusive. */
  datatype SessionHours = SessionHours(start: int, end: int)

  datatype Interval = Interval(opens: int, closes: int)

  /** What the zone database answers: the local date of an instant, and the instant at
      which a wall time opens or closes a session. */
  datatype Zone = Zone(localDay: int -> int, boundary: (int, int, bool) -> int)

  datatype TradingSchedule = TradingSchedule(zone: Zone, week: map<int, seq<SessionHours>>,
                                             overrides: map<int, seq<SessionHours>>)

  /** Monday is 0; day 0, 1970-01-01, was a Thursday. */
  function Weekday(day: int): int {
    (day + 3) % 7
  }

  function HoursOn(s: TradingSchedule, day: int): seq<SessionHours> {
    if day in s.overrides then s.overrides[day]
    else if Weekday(day) in s.week then s.week[Weekday(day)]
    else []
  }

  function Session(s: TradingSchedule, day: int, i: int): Interval
    requires 0 <= i < |HoursOn(s, day)|
  {
    var hours := HoursOn(s, day)[i];
    Interval(s.zone.boundary(day, hours.start, false), s.zone.boundary(day, hours.end, true))
  }

  /** The boundary at or before `x`: floor(x / step) * step, see FloorToDivides. */
  function FloorTo(x: int, step: int): (r: int)
    requires step > 0
    ensures r <= x < r + step
    decreases if x < 0 then step - x else x
  {
    if x < 0 then FloorTo(x + step, step) - step
    else if x < step then 0
    else FloorTo(x - step, step) + step
  }

  lemma {:induction false} TimesOneMore(a: int, b: int, step: int)
    requires step > 0 && a < b
    ensures a * step + step <= b * step
    decreases b - a
  {
    TimesSuccessor(step, b - 1);
    if a + 1 < b {
      TimesOneMore(a, b - 1, step);
    }
  }

  lemma QuotientIs(x: int, q: int, r: int, step: int)
    requires step > 0 && 0 <= r < step && x == q * step + r
    ensures x / step == q
  {
    if x / step > q {
      TimesOneMore(q, x / step, step);
    } else if x / step < q {
      TimesOneMore(x / step, q, step);
    }
  }

  lemma QuotientShift(x: int, step: int)
    requires step > 0
    ensures (x + step) / step == x / step + 1
  {
    QuotientIs(x + step, x / step + 1, x % step, step);
  }

  lemma {:induction false} FloorToDivides(x: int, step: int)
    requires step > 0
    ensures FloorTo(x, step) == x / step * step
    decreases if x < 0 then step - x else x
  {
    if x < 0 {
      FloorToDivides(x + step, step);
      QuotientShift(x, step);
      TimesSuccessor(step, x / step);
    } else if x >= step {
      FloorToDivides(x - step, step);
      QuotientShift(x - step, step);
      TimesSuccessor(step, (x - step) / step);
    } else {
      QuotientIs(x, 0, x, step);
    }
  }

  lemma TimesSuccessor(step: int, n: int)
    ensures (n + 1) * step == n * step + step
  {}

  function CeilTo(x: int, step: int): int
    requires step > 0
  {
    -FloorTo(-x, step)
  }

  /** A session, expanded to the boundaries of the candles it touches. */
  function Expand(iv: Interval, candle: Option<int>): Interval
    requires candle.Some? ==> candle.value > 0
  {
    match candle
    case None => iv
    case Some(step) => Interval(FloorTo(iv.opens, step), CeilTo(iv.closes, step))
  }

  predicate Covers(iv: Interval, t: int) {
    iv.opens <= t < iv.closes
  }

  /** Every day's sessions, already expanded; what the sweep scans. */
  datatype Timetable = Timetable(count: int -> nat, session: (int, int) -> Interval)

  function TimetableOf(s: TradingSchedule, candle: Option<int>): Timetable
    requires candle.Some? ==> candle.value > 0
  {
    Timetable(day => |HoursOn(s, day)|,
              (day, i) => if 0 <= i < |HoursOn(s, day)| then Expand(Session(s, day, i), candle) else Interval(0, 0))
  }

  /** An instant is open when some session of some day covers it. */
  ghost predicate Open(tt: Timetable, t: int) {
    exists day, i :: 0 <= i < tt.count(day) && Covers(tt.session(day, i), t)
  }

  ghost predicate OpenAt(s: TradingSchedule, candle: Option<int>, t: int)
    requires candle.Some? ==> candle.value > 0
  {
    Open(TimetableOf(s, candle), t)
  }

  /** What the validated schedule and any zone without a session that starts inside a
      spring-forward gap satisfy: sessions are not empty, they open in scanning order, and
      a day's sessions lie between the instants of the days around it. Sessions may overlap
      where clocks fall back. */
  ghost predicate Lawful(s: TradingSchedule) {
    var tt := TimetableOf(s, None);
    && (forall day, i :: 0 <= i < tt.count(day) ==> tt.session(day, i).opens < tt.session(day, i).closes)
    && OpensInOrder(tt)
    && (forall day, i, t :: 0 <= i < tt.count(day) ==>
          && (s.zone.localDay(t) > day ==> tt.session(day, i).closes <= t)
          && (s.zone.localDay(t) < day ==> t <= tt.session(day, i).opens))
  }

  ghost predicate OpensInOrder(tt: Timetable) {
    forall day, i, day', i' :: 0 <= i < tt.count(day) && 0 <= i' < tt.count(day')
      && (day < day' || (day == day' && i < i'))
      ==> tt.session(day, i).opens <= tt.session(day', i').opens
  }

  // ----- measure -----

  /** How many ticks of [lo, hi) satisfy `p`. */
  ghost function Measure(lo: int, hi: int, p: int -> bool): nat
    decreases hi - lo
  {
    if hi <= lo then 0 else Measure(lo, hi - 1, p) + (if p(hi - 1) then 1 else 0)
  }

  /** Ticks are counted once each: the measure is the size of the set of open ticks. */
  lemma {:induction false} MeasureIsSetSize(lo: int, hi: int, p: int -> bool)
    ensures Measure(lo, hi, p) == |set t | lo <= t < hi && p(t)|
    decreases hi - lo
  {
    if lo < hi {
      MeasureIsSetSize(lo, hi - 1, p);
      var before := set t | lo <= t < hi - 1 && p(t);
      var all := set t | lo <= t < hi && p(t);
      assert all == if p(hi - 1) then before + {hi - 1} else before;
    } else {
      assert (set t | lo <= t < hi && p(t)) == {};
    }
  }

  lemma {:induction false} MeasureSame(lo: int, hi: int, p: int -> bool, q: int -> bool)
    requires forall t :: lo <= t < hi ==> p(t) == q(t)
    ensures Measure(lo, hi, p) == Measure(lo, hi, q)
    decreases hi - lo
  {
    if lo < hi {
      MeasureSame(lo, hi - 1, p, q);
    }
  }

  lemma {:induction false} MeasureSplits(lo: int, mid: int, hi: int, p: int -> bool)
    requires lo <= mid <= hi
    ensures Measure(lo, hi, p) == Measure(lo, mid, p) + Measure(mid, hi, p)
    decreases hi - mid
  {
    if mid < hi {
      MeasureSplits(lo, mid, hi - 1, p);
    }
  }

  lemma {:induction false} MeasureConstant(lo: int, hi: int, p: int -> bool, value: bool)
    requires lo <= hi && forall t :: lo <= t < hi ==> p(t) == value
    ensures Measure(lo, hi, p) == if value then hi - lo else 0
    decreases hi - lo
  {
    if lo < hi {
      MeasureConstant(lo, hi - 1, p, value);
    }
  }

  function MinOf(x: int, y: int): int {
    if x <= y then x else y
  }

  function MaxOf(x: int, y: int): int {
    if x >= y then x else y
  }

  /** One step of the sweep: a session that opens no earlier than the ones before it adds
      what it covers past everything covered so far. */
  lemma {:induction false} SweepStep(lo: int, hi: int, p: int -> bool, q: int -> bool, iv: Interval, coveredUntil: int)
    requires lo <= coveredUntil
    requires forall t :: lo <= t < hi ==> (q(t) <==> p(t) || Covers(iv, t))
    requires forall t :: coveredUntil <= t ==> !p(t)
    requires forall t :: lo <= t < coveredUntil && Covers(iv, t) ==> p(t)
    ensures Measure(lo, hi, q)
         == Measure(lo, hi, p) + MaxOf(0, MinOf(hi, iv.closes) - MaxOf(coveredUntil, iv.opens))
    decreases hi - lo
  {
    if lo < hi {
      SweepStep(lo, hi - 1, p, q, iv, coveredUntil);
    }
  }

  /** On a candle boundary. */
  predicate Aligned(t: int, step: int)
    requires step > 0
  {
    FloorTo(t, step) == t
  }

  lemma AlignedIsDivisible(t: int, step: int)
    requires step > 0
    ensures Aligned(t, step) <==> t % step == 0
  {
    FloorToDivides(t, step);
  }

  lemma FloorShift(x: int, step: int)
    requires step > 0
    ensures FloorTo(x + step, step) == FloorTo(x, step) + step
  {}

  /** Everything in a bucket floors to its start. */
  lemma {:induction false} FloorInBucket(b: int, t: int, step: int)
    requires step > 0 && Aligned(b, step) && b <= t < b + step
    ensures FloorTo(t, step) == b
    decreases if b < 0 then step - b else b
  {
    if b < 0 {
      FloorShift(b, step);
      FloorShift(t, step);
      FloorInBucket(b + step, t + step, step);
    } else if b > 0 {
      FloorShift(b - step, step);
      FloorShift(t - step, step);
      FloorInBucket(b - step, t - step, step);
    }
  }

  lemma {:induction false} FloorIsAligned(x: int, step: int)
    requires step > 0
    ensures Aligned(FloorTo(x, step), step)
    decreases if x < 0 then step - x else x
  {
    if x < 0 {
      FloorIsAligned(x + step, step);
      FloorShift(FloorTo(x, step), step);
    } else if x >= step {
      FloorIsAligned(x - step, step);
      FloorShift(FloorTo(x - step, step), step);
    }
  }

  /** Two different boundaries are a candle apart. */
  lemma AlignedApart(a: int, b: int, step: int)
    requires step > 0 && Aligned(a, step) && Aligned(b, step) && a < b
    ensures a + step <= b
  {
    if b < a + step {
      FloorInBucket(a, b, step);
    }
  }

  lemma AlignedSteps(b: int, step: int)
    requires step > 0 && Aligned(b, step)
    ensures Aligned(b + step, step) && Aligned(b - step, step)
  {
    FloorShift(b, step);
    FloorShift(b - step, step);
  }

  lemma {:induction false} AlignedNegative(b: int, step: int)
    requires step > 0 && Aligned(b, step)
    ensures Aligned(-b, step)
    decreases if b < 0 then step - b else b
  {
    if b < 0 {
      AlignedSteps(b, step);
      AlignedNegative(b + step, step);
      AlignedSteps(-(b + step), step);
    } else if b > 0 {
      AlignedSteps(b, step);
      AlignedNegative(b - step, step);
      AlignedSteps(-(b - step), step);
    }
  }

  lemma {:induction false} FloorMonotone(x: int, y: int, step: int)
    requires step > 0 && x <= y
    ensures FloorTo(x, step) <= FloorTo(y, step)
  {
    FloorIsAligned(x, step);
    FloorIsAligned(y, step);
    if FloorTo(y, step) < FloorTo(x, step) {
      AlignedApart(FloorTo(y, step), FloorTo(x, step), step);
    }
  }

  /** Flooring lands in a bucket or before it exactly when the instant is before its end. */
  lemma {:induction false} FloorReaches(b: int, x: int, step: int)
    requires step > 0 && Aligned(b, step)
    ensures FloorTo(x, step) <= b <==> x < b + step
    ensures b < FloorTo(x, step) ==> b + step <= FloorTo(x, step)
  {
    FloorIsAligned(x, step);
    if b < FloorTo(x, step) {
      AlignedApart(b, FloorTo(x, step), step);
    } else if x >= b + step {
      AlignedSteps(b, step);
      FloorMonotone(b + step, x, step);
    }
  }

  // ----- the sweep -----

  ghost function OpenFn(tt: Timetable): int -> bool {
    t => Open(tt, t)
  }

  /** The measure of [start, end) inside the union of all sessions. */
  ghost function OpenMeasure(s: TradingSchedule, candle: Option<int>, start: int, end: int): nat
    requires candle.Some? ==> candle.value > 0
  {
    Measure(start, end, OpenFn(TimetableOf(s, candle)))
  }

  /** Scanned: a session of an earlier day, or an earlier session of `day`. */
  predicate Scanned(first: int, day: int, k: int, d: int, i: int) {
    first <= d && (d < day || (d == day && i < k))
  }

  ghost predicate CoveredBefore(tt: Timetable, first: int, day: int, k: int, t: int) {
    exists d, i :: 0 <= i < tt.count(d) && Scanned(first, day, k, d, i) && Covers(tt.session(d, i), t)
  }

  ghost function CoveredFn(tt: Timetable, first: int, day: int, k: int): int -> bool {
    t => CoveredBefore(tt, first, day, k, t)
  }

  /** Some scanned session reaches `coveredUntil`, or nothing has been covered yet. */
  ghost predicate Reaches(tt: Timetable, start: int, first: int, day: int, k: int, coveredUntil: int) {
    coveredUntil == start
    || exists d, i :: 0 <= i < tt.count(d) && Scanned(first, day, k, d, i) && tt.session(d, i).closes == coveredUntil
  }

  /** No scanned session goes past `coveredUntil`. */
  ghost predicate Bounded(tt: Timetable, first: int, day: int, k: int, coveredUntil: int) {
    forall d, i :: 0 <= i < tt.count(d) && Scanned(first, day, k, d, i) ==> tt.session(d, i).closes <= coveredUntil
  }

  /** What the sweep knows between two sessions. */
  ghost predicate Swept(tt: Timetable, start: int, end: int, first: int, day: int, k: int, elapsed: int,
                        coveredUntil: int)
  {
    && elapsed == Measure(start, end, CoveredFn(tt, first, day, k))
    && start <= coveredUntil
    && Bounded(tt, first, day, k, coveredUntil)
    && Reaches(tt, start, first, day, k, coveredUntil)
  }

  lemma CoveredGrows(tt: Timetable, first: int, day: int, k: int, t: int)
    requires first <= day && 0 <= k < tt.count(day)
    ensures CoveredBefore(tt, first, day, k + 1, t)
        <==> CoveredBefore(tt, first, day, k, t) || Covers(tt.session(day, k), t)
  {
    assert Scanned(first, day, k + 1, day, k);
    if CoveredBefore(tt, first, day, k + 1, t) {
      var d, i :| 0 <= i < tt.count(d) && Scanned(first, day, k + 1, d, i) && Covers(tt.session(d, i), t);
      assert (d == day && i == k) || Scanned(first, day, k, d, i);
    }
    if CoveredBefore(tt, first, day, k, t) {
      var d, i :| 0 <= i < tt.count(d) && Scanned(first, day, k, d, i) && Covers(tt.session(d, i), t);
      assert Scanned(first, day, k + 1, d, i);
    }
  }

  /** Before `coveredUntil` a later session adds nothing: the session that reached it opened earlier. */
  lemma OverlapIsCovered(tt: Timetable, start: int, first: int, day: int, k: int, coveredUntil: int, t: int)
    requires OpensInOrder(tt) && first <= day && 0 <= k < tt.count(day)
    requires Reaches(tt, start, first, day, k, coveredUntil)
    requires start <= t < coveredUntil && Covers(tt.session(day, k), t)
    ensures CoveredBefore(tt, first, day, k, t)
  {
    var d, i :| 0 <= i < tt.count(d) && Scanned(first, day, k, d, i) && tt.session(d, i).closes == coveredUntil;
    assert Covers(tt.session(d, i), t);
  }

  lemma ReachGrows(tt: Timetable, start: int, first: int, day: int, k: int, coveredUntil: int)
    requires first <= day && 0 <= k < tt.count(day)
    requires Reaches(tt, start, first, day, k, coveredUntil) && Bounded(tt, first, day, k, coveredUntil)
    ensures var until := MaxOf(coveredUntil, tt.session(day, k).closes);
            Reaches(tt, start, first, day, k + 1, until) && Bounded(tt, first, day, k + 1, until)
  {
    var until := MaxOf(coveredUntil, tt.session(day, k).closes);
    assert Scanned(first, day, k + 1, day, k);
    forall d, i | 0 <= i < tt.count(d) && Scanned(first, day, k + 1, d, i) ensures tt.session(d, i).closes <= until {
      assert (d == day && i == k) || Scanned(first, day, k, d, i);
    }
    if until == coveredUntil && coveredUntil != start {
      var d, i :| 0 <= i < tt.count(d) && Scanned(first, day, k, d, i) && tt.session(d, i).closes == coveredUntil;
      assert Scanned(first, day, k + 1, d, i);
    }
  }

  lemma SweepSession(tt: Timetable, start: int, end: int, first: int, day: int, k: int, elapsed: int, coveredUntil: int)
    requires OpensInOrder(tt) && first <= day && 0 <= k < tt.count(day)
    requires Swept(tt, start, end, first, day, k, elapsed, coveredUntil)
    ensures var iv := tt.session(day, k);
            Swept(tt, start, end, first, day, k + 1,
                  elapsed + MaxOf(0, MinOf(end, iv.closes) - MaxOf(coveredUntil, iv.opens)),
                  MaxOf(coveredUntil, iv.closes))
  {
    var iv := tt.session(day, k);
    forall t ensures CoveredBefore(tt, first, day, k + 1, t) <==> CoveredBefore(tt, first, day, k, t) || Covers(iv, t) {
      CoveredGrows(tt, first, day, k, t);
    }
    forall t | start <= t < coveredUntil && Covers(iv, t) ensures CoveredBefore(tt, first, day, k, t) {
      OverlapIsCovered(tt, start, first, day, k, coveredUntil, t);
    }
    SweepStep(start, end, CoveredFn(tt, first, day, k), CoveredFn(tt, first, day, k + 1), iv, coveredUntil);
    ReachGrows(tt, start, first, day, k, coveredUntil);
  }

  /** The end of one day is the start of the next. */
  lemma NextDay(tt: Timetable, start: int, end: int, first: int, day: int, elapsed: int, coveredUntil: int)
    requires first <= day && Swept(tt, start, end, first, day, tt.count(day), elapsed, coveredUntil)
    ensures Swept(tt, start, end, first, day + 1, 0, elapsed, coveredUntil)
  {
    var n := tt.count(day);
    forall d, i | 0 <= i < tt.count(d) ensures Scanned(first, day, n, d, i) <==> Scanned(first, day + 1, 0, d, i) {
    }
    forall t ensures CoveredBefore(tt, first, day, n, t) == CoveredBefore(tt, first, day + 1, 0, t) {
      if CoveredBefore(tt, first, day, n, t) {
        var d, i :| 0 <= i < tt.count(d) && Scanned(first, day, n, d, i) && Covers(tt.session(d, i), t);
        assert Scanned(first, day + 1, 0, d, i);
      }
      if CoveredBefore(tt, first, day + 1, 0, t) {
        var d, i :| 0 <= i < tt.count(d) && Scanned(first, day + 1, 0, d, i) && Covers(tt.session(d, i), t);
        assert Scanned(first, day, n, d, i);
      }
    }
    MeasureSame(start, end, CoveredFn(tt, first, day, n), CoveredFn(tt, first, day + 1, 0));
    if coveredUntil != start {
      var d, i :| 0 <= i < tt.count(d) && Scanned(first, day, n, d, i) && tt.session(d, i).closes == coveredUntil;
      assert Scanned(first, day + 1, 0, d, i);
    }
  }

  lemma SweepStarts(tt: Timetable, start: int, end: int, first: int)
    requires start <= end
    ensures Swept(tt, start, end, first, first, 0, 0, start)
  {
    MeasureConstant(start, end, CoveredFn(tt, first, first, 0), false);
  }

  lemma ExpandMonotone(a: Interval, b: Interval, candle: Option<int>)
    requires candle.Some? ==> candle.value > 0
    requires a.opens <= b.opens
    ensures Expand(a, candle).opens <= Expand(b, candle).opens
  {
    if candle.Some? {
      FloorMonotone(a.opens, b.opens, candle.value);
    }
  }

  lemma ExpandedInOrder(s: TradingSchedule, candle: Option<int>)
    requires candle.Some? ==> candle.value > 0
    requires Lawful(s)
    ensures OpensInOrder(TimetableOf(s, candle))
  {
    var tt, plain := TimetableOf(s, candle), TimetableOf(s, None);
    forall day, i, day', i' | 0 <= i < tt.count(day) && 0 <= i' < tt.count(day')
      && (day < day' || (day == day' && i < i'))
      ensures tt.session(day, i).opens <= tt.session(day', i').opens
    {
      assert plain.session(day, i).opens <= plain.session(day', i').opens;
      ExpandMonotone(Session(s, day, i), Session(s, day', i'), candle);
    }
  }

  /** Scanning only the padded window of local days loses nothing. */
  lemma WindowIsEnough(s: TradingSchedule, candle: Option<int>, start: int, end: int, t: int)
    requires candle.Some? ==> candle.value > 0
    requires Lawful(s) && start <= t < end
    ensures var padding := candle.GetOr(0);
            var first, last := s.zone.localDay(start - padding), s.zone.localDay(end + padding);
            OpenAt(s, candle, t) <==> CoveredBefore(TimetableOf(s, candle), first, last + 1, 0, t)
  {
    var padding := candle.GetOr(0);
    var first, last := s.zone.localDay(start - padding), s.zone.localDay(end + padding);
    var tt, plain := TimetableOf(s, candle), TimetableOf(s, None);
    if OpenAt(s, candle, t) {
      var d, i :| 0 <= i < tt.count(d) && Covers(tt.session(d, i), t);
      assert plain.session(d, i).opens < plain.session(d, i).closes;
      assert Scanned(first, last + 1, 0, d, i);
    }
  }

  lemma SweepEnds(s: TradingSchedule, candle: Option<int>, start: int, end: int, first: int, last: int, tt: Timetable,
                  day: int, elapsed: int, coveredUntil: int)
    requires candle.Some? ==> candle.value > 0
    requires Lawful(s) && start < end && tt == TimetableOf(s, candle)
    requires first == s.zone.localDay(start - candle.GetOr(0)) && last == s.zone.localDay(end + candle.GetOr(0))
    requires if first <= last then day == last + 1 else day == first
    requires Swept(tt, start, end, first, day, 0, elapsed, coveredUntil)
    ensures elapsed == OpenMeasure(s, candle, start, end)
  {
    forall t | start <= t < end ensures Open(tt, t) == CoveredBefore(tt, first, day, 0, t) {
      WindowIsEnough(s, candle, start, end, t);
      if first > last {
        assert CoveredBefore(tt, first, last + 1, 0, t) == CoveredBefore(tt, first, day, 0, t) == false;
      }
    }
    MeasureSame(start, end, OpenFn(tt), CoveredFn(tt, first, day, 0));
  }

  /** UTC time in open intervals, optionally expanded to candle boundaries: a sweep with one
      `coveredUntil` computes the measure of the union of all sessions. */
  method OpenElapsed(s: TradingSchedule, start: int, end: int, candle: Option<int>) returns (elapsed: int)
    requires Lawful(s) && (candle.Some? ==> candle.value > 0)
    ensures elapsed == OpenMeasure(s, candle, start, end)
  {
    if end <= start {
      return 0;
    }
    elapsed := SweepWindow(s, start, end, candle);
  }

  /** Sweep the padded window of local days. */
  method SweepWindow(s: TradingSchedule, start: int, end: int, candle: Option<int>) returns (elapsed: int)
    requires Lawful(s) && (candle.Some? ==> candle.value > 0) && start < end
    ensures elapsed == OpenMeasure(s, candle, start, end)
  {
    var padding := candle.GetOr(0);
    var day := s.zone.localDay(start - padding);
    var lastDay := s.zone.localDay(end + padding);
    var tt := TimetableOf(s, candle);
    ExpandedInOrder(s, candle);
    var coveredUntil, swept;
    elapsed, coveredUntil, swept := SweepDays(tt, start, end, day, lastDay);
    SweepEnds(s, candle, start, end, day, lastDay, tt, swept, elapsed, coveredUntil);
  }

  /** The outer loop: every local day of the window. */
  method SweepDays(tt: Timetable, start: int, end: int, first: int, lastDay: int)
    returns (elapsed: int, coveredUntil: int, day: int)
    requires OpensInOrder(tt) && start < end
    ensures if first <= lastDay then day == lastDay + 1 else day == first
    ensures Swept(tt, start, end, first, day, 0, elapsed, coveredUntil)
  {
    day, elapsed, coveredUntil := first, 0, start;
    SweepStarts(tt, start, end, first);
    while day <= lastDay
      invariant first <= day && (day <= lastDay + 1 || day == first)
      invariant Swept(tt, start, end, first, day, 0, elapsed, coveredUntil)
      decreases lastDay - day
    {
      elapsed, coveredUntil := SweepDay(tt, start, end, first, day, elapsed, coveredUntil);
      day := day + 1;
    }
  }

  /** The inner loop: one local day's sessions. */
  method SweepDay(tt: Timetable, start: int, end: int, ghost first: int, day: int, elapsedBefore: int,
                  coveredBefore: int) returns (elapsed: int, coveredUntil: int)
    requires OpensInOrder(tt) && first <= day && Swept(tt, start, end, first, day, 0, elapsedBefore, coveredBefore)
    ensures Swept(tt, start, end, first, day + 1, 0, elapsed, coveredUntil)
  {
    elapsed, coveredUntil := elapsedBefore, coveredBefore;
    for k := 0 to tt.count(day)
      invariant Swept(tt, start, end, first, day, k, elapsed, coveredUntil)
    {
      SweepSession(tt, start, end, first, day, k, elapsed, coveredUntil);
      var iv := tt.session(day, k);
      elapsed := elapsed + MaxOf(0, MinOf(end, iv.closes) - MaxOf(coveredUntil, iv.opens));
      coveredUntil := MaxOf(coveredUntil, iv.closes);
    }
    NextDay(tt, start, end, first, day, elapsed, coveredUntil);
  }

  /** Open time is additive over adjacent ranges. */
  lemma OpenMeasureSplits(s: TradingSchedule, candle: Option<int>, start: int, mid: int, end: int)
    requires candle.Some? ==> candle.value > 0
    requires start <= mid <= end
    ensures OpenMeasure(s, candle, start, end) == OpenMeasure(s, candle, start, mid) + OpenMeasure(s, candle, mid, end)
  {
    MeasureSplits(start, mid, end, OpenFn(TimetableOf(s, candle)));
  }

  // ----- candle expansion -----

  /** The bucket starting at `b` overlaps a session. */
  ghost predicate Touched(tt: Timetable, step: int, b: int) {
    exists day, i :: 0 <= i < tt.count(day) && tt.session(day, i).opens < b + step && b < tt.session(day, i).closes
  }

  /** An expanded session covers whole buckets: those its session overlaps. */
  lemma ExpandedCoversBuckets(iv: Interval, step: int, b: int, t: int)
    requires step > 0 && Aligned(b, step) && b <= t < b + step
    ensures Covers(Expand(iv, Some(step)), t) <==> iv.opens < b + step && b < iv.closes
  {
    FloorReaches(b, iv.opens, step);
    AlignedNegative(b, step);
    AlignedSteps(-b, step);
    FloorReaches(-b - step, -iv.closes, step);
  }

  lemma ExpandedSession(s: TradingSchedule, step: int, b: int, t: int, day: int, i: int)
    requires step > 0 && Aligned(b, step) && b <= t < b + step && 0 <= i < |HoursOn(s, day)|
    ensures var iv := TimetableOf(s, None).session(day, i);
            Covers(TimetableOf(s, Some(step)).session(day, i), t) <==> iv.opens < b + step && b < iv.closes
  {
    ExpandedCoversBuckets(Session(s, day, i), step, b, t);
  }

  lemma ExpandedOpen(s: TradingSchedule, step: int, b: int, t: int)
    requires step > 0 && Aligned(b, step) && b <= t < b + step
    ensures Open(TimetableOf(s, Some(step)), t) <==> Touched(TimetableOf(s, None), step, b)
  {
    var tt, plain := TimetableOf(s, Some(step)), TimetableOf(s, None);
    if Open(tt, t) {
      var day, i :| 0 <= i < tt.count(day) && Covers(tt.session(day, i), t);
      ExpandedSession(s, step, b, t, day, i);
    }
    if Touched(plain, step, b) {
      var day, i :| 0 <= i < plain.count(day) && plain.session(day, i).opens < b + step
          && b < plain.session(day, i).closes;
      ExpandedSession(s, step, b, t, day, i);
    }
  }

  /** A bucket overlaps a session exactly when some of its time is open. */
  lemma {:induction false} TouchedIsOpenTime(tt: Timetable, step: int, b: int)
    requires step > 0
    requires forall day, i :: 0 <= i < tt.count(day) ==> tt.session(day, i).opens < tt.session(day, i).closes
    ensures Touched(tt, step, b) <==> Measure(b, b + step, OpenFn(tt)) > 0
  {
    if Touched(tt, step, b) {
      var day, i :| 0 <= i < tt.count(day) && tt.session(day, i).opens < b + step && b < tt.session(day, i).closes;
      var t := MaxOf(b, tt.session(day, i).opens);
      assert Covers(tt.session(day, i), t);
      MeasureSplits(b, t, b + step, OpenFn(tt));
      MeasureSplits(t, t + 1, b + step, OpenFn(tt));
      MeasureConstant(t, t + 1, OpenFn(tt), true);
    } else {
      MeasureConstant(b, b + step, OpenFn(tt), false);
    }
  }

  /** The buckets of [start, end) with open time: what candle coverage expects. */
  ghost function OpenBuckets(s: TradingSchedule, step: int, start: int, end: int): set<int>
    requires step > 0
  {
    set b | start <= b < end && Aligned(b, step) && OpenMeasure(s, None, b, b + step) > 0
  }

  lemma BucketMeasure(s: TradingSchedule, step: int, b: int)
    requires step > 0 && Lawful(s) && Aligned(b, step)
    ensures OpenMeasure(s, Some(step), b, b + step) == if OpenMeasure(s, None, b, b + step) > 0 then step else 0
  {
    var tt, plain := TimetableOf(s, Some(step)), TimetableOf(s, None);
    forall t | b <= t < b + step ensures Open(tt, t) == Touched(plain, step, b) {
      ExpandedOpen(s, step, b, t);
    }
    MeasureConstant(b, b + step, OpenFn(tt), Touched(plain, step, b));
    TouchedIsOpenTime(plain, step, b);
  }

  /** With aligned bounds, expanded open time is the candle length times the number of
      buckets that overlap an open session. */
  lemma {:induction false} ExpandedMeasureCountsBuckets(s: TradingSchedule, step: int, start: int, end: int)
    requires step > 0 && Lawful(s) && Aligned(start, step) && Aligned(end, step) && start <= end
    ensures OpenMeasure(s, Some(step), start, end) == |OpenBuckets(s, step, start, end)| * step
    decreases end - start
  {
    if start == end {
      assert OpenBuckets(s, step, start, end) == {};
    } else {
      var b := end - step;
      OneMoreBucket(s, step, start, end);
      ExpandedMeasureCountsBuckets(s, step, start, b);
      LastBucketCounts(s, step, start, b);
      TimesSuccessor(step, |OpenBuckets(s, step, start, b)|);
    }
  }

  /** The last bucket adds its whole length when some of it is open, and nothing otherwise. */
  lemma LastBucketCounts(s: TradingSchedule, step: int, start: int, b: int)
    requires step > 0 && Lawful(s) && Aligned(b, step) && start <= b
    ensures OpenMeasure(s, Some(step), start, b + step)
         == OpenMeasure(s, Some(step), start, b) + (if OpenMeasure(s, None, b, b + step) > 0 then step else 0)
  {
    OpenMeasureSplits(s, Some(step), start, b, b + step);
    BucketMeasure(s, step, b);
  }

  lemma OneMoreBucket(s: TradingSchedule, step: int, start: int, end: int)
    requires step > 0 && Aligned(start, step) && Aligned(end, step) && start < end
    ensures var b := end - step;
            var before, all := OpenBuckets(s, step, start, b), OpenBuckets(s, step, start, end);
            && start <= b && Aligned(b, step) && b !in before
            && all == (if OpenMeasure(s, None, b, b + step) > 0 then before + {b} else before)
            && |all| == |before| + (if OpenMeasure(s, None, b, b + step) > 0 then 1 else 0)
  {
    var b := end - step;
    AlignedApart(start, end, step);
    AlignedSteps(end, step);
    forall x | start <= x < end && Aligned(x, step) ensures x <= b {
      AlignedApart(x, end, step);
    }
  }

  // ----- candle_due -----

  /** Whether the baseline's successor should have arrived, plus wall-time slack. */
  method CandleDue(s: TradingSchedule, baseline: int, now: int, step: int, slack: int) returns (due: bool)
    requires step > 0 && Lawful(s)
    ensures due <==> OpenMeasure(s, Some(step), baseline, now - slack) >= 2 * step
  {
    var elapsed := OpenElapsed(s, baseline, now - slack, Some(step));
    due := elapsed >= 2 * step;
  }

  /** Open around the clock: every instant lies in a session of its own local day. */
  ghost predicate AlwaysOpen(s: TradingSchedule) {
    forall t :: OpenAt(s, None, t)
  }

  lemma ExpandedContains(s: TradingSchedule, step: int, t: int)
    requires step > 0 && OpenAt(s, None, t)
    ensures OpenAt(s, Some(step), t)
  {
    var tt, plain := TimetableOf(s, Some(step)), TimetableOf(s, None);
    var day, i :| 0 <= i < plain.count(day) && Covers(plain.session(day, i), t);
    assert Covers(tt.session(day, i), t);
  }

  /** For an all-day schedule the due rule is the poller's schedule-free deadline. */
  lemma AllDayDueIsTheDeadline(s: TradingSchedule, baseline: int, now: int, step: int, slack: int)
    requires step > 0 && AlwaysOpen(s)
    ensures OpenMeasure(s, Some(step), baseline, now - slack) >= 2 * step <==> now >= baseline + 2 * step + slack
  {
    var tt := TimetableOf(s, Some(step));
    forall t ensures Open(tt, t) {
      assert OpenAt(s, None, t);
      ExpandedContains(s, step, t);
    }
    if baseline <= now - slack {
      MeasureConstant(baseline, now - slack, OpenFn(tt), true);
    }
  }
}
