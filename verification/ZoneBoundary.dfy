/** How wall times become instants around a clock change: `_boundary` of
    kaupo/market_calendar.py, for a zone with one change of offset. */
module ZoneBoundary {
  import opened Domain
  import opened MarketCalendar

  const DAY := 86400
  const MINUTE := 60

  /** One clock change: the offset from UTC before and after it, in seconds. */
  datatype Change = Change(at: int, before: int, after: int)

  function Local(z: Change, t: int): int {
    t + if t < z.at then z.before else z.after
  }

  function LocalDay(z: Change, t: int): int {
    Local(z, t) / DAY
  }

  /** Repeated wall times open at the first and close at the last occurrence; a missing one
      moves forward by the gap. */
  function Boundary(z: Change, wall: int, closing: bool): int {
    var early, late := wall - z.before, wall - z.after;
    if early < z.at && late >= z.at then (if closing then late else early)
    else if early < z.at then early
    else if late >= z.at then late
    else MaxOf(early, late)
  }

  function ZoneOf(z: Change): Zone {
    Zone(t => LocalDay(z, t), (day, minute, closing) => Boundary(z, day * DAY + minute * MINUTE, closing))
  }

  /** Each day's hours as the schedule validator leaves them: ordered, disjoint, inside the day. */
  ghost predicate ValidHours(s: TradingSchedule) {
    forall day, i :: 0 <= i < |HoursOn(s, day)| ==>
      && 0 <= HoursOn(s, day)[i].start < HoursOn(s, day)[i].end <= 1440
      && (forall j :: i < j < |HoursOn(s, day)| ==> HoursOn(s, day)[i].end <= HoursOn(s, day)[j].start)
  }

  /** The validator wants an open session in the week. */
  predicate OpensWeekly(s: TradingSchedule) {
    exists weekday :: 0 <= weekday < 7 && weekday in s.week && s.week[weekday] != []
  }

  predicate InGap(z: Change, wall: int) {
    z.at + z.before <= wall < z.at + z.after
  }

  ghost predicate NoStartInGap(s: TradingSchedule, z: Change) {
    forall day, i :: 0 <= i < |HoursOn(s, day)| ==> !InGap(z, StartWall(s, day, i))
  }

  /** The last wall time, to the minute, that is skipped on the day the skip begins. */
  function LastSkipped(z: Change): int {
    var dayEnd := ((z.at + z.before) / DAY + 1) * DAY;
    MinOf((z.at + z.after - 1) / MINUTE * MINUTE, dayEnd)
  }

  /** The change stays clear of midnight. A repeated hour lies inside one local day, after its
      midnight. A skip begins at midnight, or skips no minute, or the last minute it skips, moved
      forward by the length of the skip, still belongs to its day. */
  predicate ClearOfMidnight(z: Change) {
    if z.after < z.before then
      var midnight := (z.at + z.after) / DAY * DAY;
      midnight < z.at + z.after && z.at + z.before <= midnight + DAY
    else
      var midnight := (z.at + z.before) / DAY * DAY;
      || midnight == z.at + z.before
      || LastSkipped(z) <= z.at + z.before
      || LastSkipped(z) + (z.after - z.before) <= midnight + DAY
  }

  lemma OpeningWithinDay(z: Change, wall: int, day: int, t: int)
    requires ClearOfMidnight(z) && !InGap(z, wall) && day * DAY <= wall && LocalDay(z, t) < day
    ensures t <= Boundary(z, wall, false)
  {
    assert Local(z, t) < day * DAY;
  }

  lemma ClosingWithinDay(z: Change, start: int, wall: int, day: int, t: int)
    requires ClearOfMidnight(z) && !InGap(z, start) && day * DAY <= start < wall <= (day + 1) * DAY
    requires wall % MINUTE == 0 && LocalDay(z, t) > day
    ensures Boundary(z, wall, true) <= t
  {
    assert Local(z, t) >= (day + 1) * DAY;
    if InGap(z, wall) && z.at + z.before < wall {
      SkippedClosing(z, start, wall, day);
    }
  }

  lemma DayOf(x: int, day: int)
    requires day * DAY <= x < (day + 1) * DAY
    ensures x / DAY == day
  {}

  lemma MinuteAtOrBefore(wall: int, x: int)
    requires wall % MINUTE == 0 && wall <= x
    ensures wall <= x / MINUTE * MINUTE
  {}

  /** The last skipped minute of the day is skipped, on the minute, and not after the day's end. */
  lemma LastSkippedIs(z: Change)
    ensures LastSkipped(z) % MINUTE == 0 && LastSkipped(z) < z.at + z.after
    ensures LastSkipped(z) <= ((z.at + z.before) / DAY + 1) * DAY
  {
    var dayEnd, last := ((z.at + z.before) / DAY + 1) * DAY, (z.at + z.after - 1) / MINUTE * MINUTE;
    assert dayEnd % MINUTE == 0 by { WholeDays((z.at + z.before) / DAY + 1); }
    assert last % MINUTE == 0 by { WholeMinutes((z.at + z.after - 1) / MINUTE); }
  }

  lemma WholeDays(n: int)
    ensures n * DAY % MINUTE == 0
  {}

  lemma WholeMinutes(n: int)
    ensures n * MINUTE % MINUTE == 0
  {}

  /** A session that closes in the skip began on the same day before it. */
  lemma SkippedClosing(z: Change, start: int, wall: int, day: int)
    requires ClearOfMidnight(z) && !InGap(z, start) && day * DAY <= start < wall <= (day + 1) * DAY
    requires wall % MINUTE == 0 && z.at + z.before < wall < z.at + z.after
    ensures wall + (z.after - z.before) <= (day + 1) * DAY
  {
    assert start < z.at + z.before;
    DayOf(z.at + z.before, day);
    MinuteAtOrBefore(wall, z.at + z.after - 1);
    assert wall <= LastSkipped(z);
  }

  lemma OpensBeforeCloses(z: Change, start: int, end: int)
    requires !InGap(z, start) && start < end
    ensures Boundary(z, start, false) < Boundary(z, end, true)
  {}

  lemma OpensMonotone(z: Change, a: int, b: int)
    requires !InGap(z, a) && !InGap(z, b) && a <= b
    ensures Boundary(z, a, false) <= Boundary(z, b, false)
  {}

  function StartWall(s: TradingSchedule, day: int, i: int): int
    requires 0 <= i < |HoursOn(s, day)|
  {
    day * DAY + HoursOn(s, day)[i].start * MINUTE
  }

  function EndWall(s: TradingSchedule, day: int, i: int): int
    requires 0 <= i < |HoursOn(s, day)|
  {
    day * DAY + HoursOn(s, day)[i].end * MINUTE
  }

  lemma SessionIs(s: TradingSchedule, z: Change, day: int, i: int)
    requires s.zone == ZoneOf(z) && ValidHours(s) && 0 <= i < |HoursOn(s, day)|
    ensures TimetableOf(s, None).session(day, i)
         == Interval(Boundary(z, StartWall(s, day, i), false), Boundary(z, EndWall(s, day, i), true))
    ensures day * DAY <= StartWall(s, day, i) < EndWall(s, day, i) <= (day + 1) * DAY
  {}

  /** Sessions are scanned in wall-time order. */
  lemma StartsInOrder(s: TradingSchedule, day: int, i: int, day': int, i': int)
    requires ValidHours(s) && 0 <= i < |HoursOn(s, day)| && 0 <= i' < |HoursOn(s, day')|
    requires day < day' || (day == day' && i < i')
    ensures StartWall(s, day, i) <= StartWall(s, day', i')
  {
    var a, b := HoursOn(s, day)[i], HoursOn(s, day')[i'];
    assert a.start < a.end <= 1440 && 0 <= b.start;
  }

  /** Around a clock change that stays clear of midnight, a valid schedule whose sessions do not
      start in the skipped hour is lawful, so the sweep measures it exactly. */
  lemma ClockChangeIsLawful(s: TradingSchedule, z: Change)
    requires s.zone == ZoneOf(z) && ValidHours(s) && NoStartInGap(s, z) && ClearOfMidnight(z)
    ensures Lawful(s)
  {
    var tt := TimetableOf(s, None);
    forall day, i | 0 <= i < tt.count(day)
      ensures tt.session(day, i).opens < tt.session(day, i).closes
    {
      SessionIs(s, z, day, i);
      OpensBeforeCloses(z, StartWall(s, day, i), EndWall(s, day, i));
    }
    forall day, i, day', i' | 0 <= i < tt.count(day) && 0 <= i' < tt.count(day')
      && (day < day' || (day == day' && i < i'))
      ensures tt.session(day, i).opens <= tt.session(day', i').opens
    {
      SessionIs(s, z, day, i);
      SessionIs(s, z, day', i');
      StartsInOrder(s, day, i, day', i');
      OpensMonotone(z, StartWall(s, day, i), StartWall(s, day', i'));
    }
    forall day, i, t | 0 <= i < tt.count(day)
      ensures s.zone.localDay(t) > day ==> tt.session(day, i).closes <= t
      ensures s.zone.localDay(t) < day ==> t <= tt.session(day, i).opens
    {
      SessionWithinDay(s, z, day, i, t);
    }
  }

  /** A session lies between the instants of the days around its own. */
  lemma SessionWithinDay(s: TradingSchedule, z: Change, day: int, i: int, t: int)
    requires s.zone == ZoneOf(z) && ValidHours(s) && NoStartInGap(s, z) && ClearOfMidnight(z)
    requires 0 <= i < |HoursOn(s, day)|
    ensures LocalDay(z, t) > day ==> TimetableOf(s, None).session(day, i).closes <= t
    ensures LocalDay(z, t) < day ==> t <= TimetableOf(s, None).session(day, i).opens
  {
    SessionIs(s, z, day, i);
    EndsOnTheMinute(day, HoursOn(s, day)[i].end);
    WallsWithinDay(z, StartWall(s, day, i), EndWall(s, day, i), day, t);
  }

  lemma EndsOnTheMinute(day: int, minute: int)
    ensures (day * DAY + minute * MINUTE) % MINUTE == 0
  {
    assert day * DAY + minute * MINUTE == (day * 1440 + minute) * MINUTE;
    WholeMinutes(day * 1440 + minute);
  }

  lemma WallsWithinDay(z: Change, start: int, wall: int, day: int, t: int)
    requires ClearOfMidnight(z) && !InGap(z, start) && day * DAY <= start < wall <= (day + 1) * DAY
    requires wall % MINUTE == 0
    ensures LocalDay(z, t) > day ==> Boundary(z, wall, true) <= t
    ensures LocalDay(z, t) < day ==> t <= Boundary(z, start, false)
  {
    if LocalDay(z, t) > day {
      ClosingWithinDay(z, start, wall, day, t);
    } else if LocalDay(z, t) < day {
      OpeningWithinDay(z, start, day, t);
    }
  }

  /** Every instant of every range of every such schedule is open exactly when a session of the
      padded window of local days covers it. */
  ghost predicate WindowSuffices(z: Change) {
    forall s: TradingSchedule, candle: Option<int>, start: int, end: int, t: int ::
      WindowCase(s, z, candle, start, end, t) ==> WindowTells(s, candle, start, end, t)
  }

  ghost predicate WindowCase(s: TradingSchedule, z: Change, candle: Option<int>, start: int, end: int, t: int) {
    && s.zone == ZoneOf(z) && OpensWeekly(s) && ValidHours(s) && NoStartInGap(s, z)
    && (candle.Some? ==> candle.value > 0)
    && start <= t < end
  }

  ghost predicate WindowTells(s: TradingSchedule, candle: Option<int>, start: int, end: int, t: int)
    requires candle.Some? ==> candle.value > 0
  {
    var padding := candle.GetOr(0);
    var first, last := s.zone.localDay(start - padding), s.zone.localDay(end + padding);
    OpenAt(s, candle, t) <==> CoveredBefore(TimetableOf(s, candle), first, last + 1, 0, t)
  }

  /** The padded window loses nothing if and only if the change stays clear of midnight. */
  lemma WindowSufficesExactly(z: Change)
    ensures WindowSuffices(z) <==> ClearOfMidnight(z)
  {
    if ClearOfMidnight(z) {
      forall s: TradingSchedule, candle: Option<int>, start: int, end: int, t: int
        | WindowCase(s, z, candle, start, end, t)
        ensures WindowTells(s, candle, start, end, t)
      {
        ClockChangeIsLawful(s, z);
        WindowIsEnough(s, candle, start, end, t);
      }
    } else if z.after < z.before {
      FallBackLosesTime(z);
    } else {
      SkipLosesTime(z);
    }
  }

  const MONDAYS := map[0 := [SessionHours(0, 1440)]]

  /** A schedule that is open on Mondays, but on the days from `lo` to `hi` only on one, from midnight
      to `minute`. */
  function OneDay(z: Change, day: int, minute: int, lo: int, hi: int): TradingSchedule {
    TradingSchedule(ZoneOf(z), MONDAYS,
                    map d | lo <= d <= hi && OnDays(d, lo, hi) :: if d == day then [SessionHours(0, minute)] else [])
  }

  predicate OnDays(d: int, lo: int, hi: int) {
    lo <= d <= hi
  }

  /** The days around a change that skips at most whole days of the range. */
  predicate Around(z: Change, lo: int, hi: int) {
    lo * DAY <= z.at + z.before && z.at + z.after < (hi + 1) * DAY
  }

  lemma OneDayHours(z: Change, day: int, minute: int, lo: int, hi: int)
    requires 0 < minute <= 1440 && !InGap(z, day * DAY) && lo <= day <= hi && Around(z, lo, hi)
    ensures var s := OneDay(z, day, minute, lo, hi);
            && OpensWeekly(s) && ValidHours(s) && NoStartInGap(s, z) && HoursOn(s, day) == [SessionHours(0, minute)]
            && (forall d :: lo <= d <= hi && d != day ==> HoursOn(s, d) == [])
  {
    var s := OneDay(z, day, minute, lo, hi);
    assert 0 in s.week && s.week[0] != [];
    assert forall d :: OnDays(d, lo, hi) <==> lo <= d <= hi;
    forall d, i | 0 <= i < |HoursOn(s, d)| ensures !InGap(z, StartWall(s, d, i)) {
      assert d < lo || d == day || hi < d;
    }
  }

  /** An instant whose local date is past the one day that still has it open. */
  lemma MissedInstant(z: Change, day: int, minute: int, t: int)
    requires 0 < minute <= 1440 && !InGap(z, day * DAY) && LocalDay(z, t) > day
    requires Boundary(z, day * DAY, false) <= t < Boundary(z, day * DAY + minute * MINUTE, true)
    ensures !WindowSuffices(z)
  {
    var lo := MinOf(day, (z.at + z.before) / DAY);
    var hi := MaxOf(MaxOf(day, (z.at + z.after) / DAY), LocalDay(z, t + 1));
    OneDayHours(z, day, minute, lo, hi);
    var s := OneDay(z, day, minute, lo, hi);
    var tt := TimetableOf(s, None);
    assert 0 <= 0 < tt.count(day) && Covers(tt.session(day, 0), t);
    forall d | LocalDay(z, t) <= d <= LocalDay(z, t + 1) ensures tt.count(d) == 0 {
      assert lo <= d <= hi && d != day;
    }
    assert WindowCase(s, z, None, t, t + 1, t) && !WindowTells(s, None, t, t + 1, t);
  }

  /** Clocks that fall back onto, or past, a midnight repeat the end of a day on the next date. */
  lemma FallBackLosesTime(z: Change)
    requires z.after < z.before && !ClearOfMidnight(z)
    ensures !WindowSuffices(z)
  {
    var midnight := (z.at + z.after) / DAY * DAY;
    var dayEnd := if midnight == z.at + z.after then midnight else midnight + DAY;
    var day, t := dayEnd / DAY - 1, dayEnd - z.before;
    assert LocalDay(z, t) == dayEnd / DAY;
    MissedInstant(z, day, 1440, t);
  }

  /** A closing in the skipped hour moves past the midnight that the clocks have reached. */
  lemma SkipLosesTime(z: Change)
    requires z.before <= z.after && !ClearOfMidnight(z)
    ensures !WindowSuffices(z)
  {
    var day := (z.at + z.before) / DAY;
    var wall, dayEnd := LastSkipped(z), (day + 1) * DAY;
    LastSkippedIs(z);
    assert day * DAY < z.at + z.before < wall && wall + (z.after - z.before) > dayEnd;
    var t := MaxOf(z.at, dayEnd - z.after);
    MinutesOfDay(wall, day);
    NextDay(t + z.after, day);
    assert Boundary(z, wall, true) == wall - z.before && Boundary(z, day * DAY, false) == day * DAY - z.before;
    MissedInstant(z, day, (wall - day * DAY) / MINUTE, t);
  }

  lemma NextDay(x: int, day: int)
    requires (day + 1) * DAY <= x
    ensures day < x / DAY
  {}

  lemma MinutesOfDay(wall: int, day: int)
    requires wall % MINUTE == 0 && day * DAY < wall <= (day + 1) * DAY
    ensures var minute := (wall - day * DAY) / MINUTE;
            0 < minute <= 1440 && day * DAY + minute * MINUTE == wall
  {}

  /** The limit of the padded window: clocks that fall back onto midnight. Day 0, a Thursday, is
      open all day and closes at the second midnight, 90000 s; between the two midnights the local date
      is already day 1, so a range there scans only day 1 and finds nothing open. */
  lemma MidnightFallBackLosesTime()
    ensures var z := Change(90000, 0, -3600);
            var s := TradingSchedule(ZoneOf(z), map[3 := [SessionHours(0, 1440)]], map[]);
            var t := 88000;
            && OpensWeekly(s) && ValidHours(s) && NoStartInGap(s, z) && !ClearOfMidnight(z)
            && OpenAt(s, None, t)
            && !CoveredBefore(TimetableOf(s, None), s.zone.localDay(t), s.zone.localDay(t + 1) + 1, 0, t)
  {
    var z := Change(90000, 0, -3600);
    var s := TradingSchedule(ZoneOf(z), map[3 := [SessionHours(0, 1440)]], map[]);
    var tt := TimetableOf(s, None);
    assert forall day :: HoursOn(s, day) == if Weekday(day) == 3 then [SessionHours(0, 1440)] else [];
    assert 3 in s.week && s.week[3] != [];
    assert tt.session(0, 0) == Interval(0, 90000);
    assert 0 <= 0 < tt.count(0) && Covers(tt.session(0, 0), 88000);
    assert s.zone.localDay(88000) == 1 && s.zone.localDay(88001) == 1;
    forall d, i | 0 <= i < tt.count(d) ensures !Scanned(1, 2, 0, d, i) {
      assert Weekday(d) == 3;
    }
  }
}
