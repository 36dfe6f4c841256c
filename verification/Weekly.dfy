/** How much of a week a relative span covers, and when a downtime and an uptime say the same. */
module Weekly {
  import opened Wrappers
  import opened TimeSpans
  import opened Schedule

  const WEEK := 7 * DAY_MINUTES

  function Min(a: int, b: int): int {
    if a < b then a else b
  }

  function Indicator(b: bool): nat {
    if b then 1 else 0
  }

  // ----- ranges on a circle -----

  /** The minutes of a day from one day time to another, both cut at midnight. */
  function RangeLength(from: DayTime, to: DayTime): (length: nat)
    ensures length <= DAY_MINUTES
  {
    var f, t := Min(from, DAY_MINUTES), Min(to, DAY_MINUTES);
    if from > to then DAY_MINUTES - f + t else t - f
  }

  /** A time of day is in the range when, going round the clock from `from`, it comes within the length of the
      range. */
  lemma TimesGoRoundTheClock(t: int, from: DayTime, to: DayTime)
    requires 0 <= t < DAY_MINUTES
    ensures TimeOfDayInRange(t, from, to) <==> (t - Min(from, DAY_MINUTES)) % DAY_MINUTES < RangeLength(from, to)
  {
  }

  /** A weekday is in the range when, going round the week from `from`, it comes no later than `to`. */
  lemma WeekdaysGoRoundTheWeek(d: Weekday, from: Weekday, to: Weekday)
    ensures WeekdayInRange(d, from, to) <==> (d - from) % 7 <= (to - from) % 7
  {
  }

  // ----- the calendar -----

  const DAY := 24 * 60 * MINUTE

  /** A span in a zone contains an instant exactly when the same span in UTC contains the instant that much later: a
      zone east of UTC is ahead. */
  lemma ZoneIsAhead(span: Span, zone: Timezone, now: Instant, defaults: Defaults)
    requires span.RelativeSpan?
    ensures IsTimeInSpan(span.(timezone := Some(zone)), now, defaults) ==
            IsTimeInSpan(span.(timezone := Some(0)), now + zone, defaults)
  {
  }

  /** Where the calendar is anchored and how it moves on: instant 0 is a Thursday at midnight, a minute later it is a
      minute later, and a day later it is the same time of the next weekday. */
  lemma CalendarMovesOn(now: Instant, zone: Timezone)
    ensures WeekdayOf(LocalMinute(0, 0)) == 4 && MinuteOfDay(LocalMinute(0, 0)) == 0
    ensures LocalMinute(now + MINUTE, zone) == LocalMinute(now, zone) + 1
    ensures WeekdayOf(LocalMinute(now + DAY, zone)) == (WeekdayOf(LocalMinute(now, zone)) + 1) % 7
    ensures MinuteOfDay(LocalMinute(now + DAY, zone)) == MinuteOfDay(LocalMinute(now, zone))
  {
    assert LocalMinute(now + DAY, zone) == LocalMinute(now, zone) + DAY_MINUTES;
    NextDay(LocalMinute(now, zone));
  }

  lemma NextDay(minute: int)
    ensures WeekdayOf(minute + DAY_MINUTES) == (WeekdayOf(minute) + 1) % 7
    ensures MinuteOfDay(minute + DAY_MINUTES) == MinuteOfDay(minute)
  {
    assert (minute + DAY_MINUTES) / DAY_MINUTES == minute / DAY_MINUTES + 1;
  }

  /** The instant of a minute `t` of a day counted from 1970-01-01, as the clocks of the zone show it. */
  function LocalTime(day: int, t: int, zone: Timezone): Instant {
    (day * DAY_MINUTES + t) * MINUTE - zone
  }

  /** A span with its own zone and frame contains a local time when its weekday is no further round the week from the
      first day than the last, and its minute less far round the clock than the range is long; no default matters. */
  lemma SpanOfLocalTimes(day: int, t: int, rest: int, zone: Timezone, from: Weekday, to: Weekday, timeFrom: DayTime,
                         timeTo: DayTime, defaults: Defaults)
    requires 0 <= t < DAY_MINUTES && 0 <= rest < MINUTE
    ensures IsTimeInSpan(RelativeSpan(Some(zone), Some(from), Some(to), timeFrom, timeTo),
                         LocalTime(day, t, zone) + rest, defaults) ==
            Some((day + 4 - from) % 7 <= (to - from) % 7 &&
                 (t - Min(timeFrom, DAY_MINUTES)) % DAY_MINUTES < RangeLength(timeFrom, timeTo))
  {
    var minute := day * DAY_MINUTES + t;
    assert LocalMinute(LocalTime(day, t, zone) + rest, zone) == minute by { MinutesOf(minute, rest); }
    DayArithmetic(day, t);
    TimesGoRoundTheClock(t, timeFrom, timeTo);
    WeekdaysGoRoundTheWeek((day + 4) % 7, from, to);
    RoundTheWeek(day, from);
  }

  lemma MinutesOf(minute: int, rest: int)
    requires 0 <= rest < MINUTE
    ensures (minute * MINUTE + rest) / MINUTE == minute
  {
  }

  lemma RoundTheWeek(day: int, from: Weekday)
    ensures ((day + 4) % 7 - from) % 7 == (day + 4 - from) % 7
  {
  }

  lemma DayArithmetic(day: int, t: int)
    requires 0 <= t < DAY_MINUTES
    ensures MinuteOfDay(day * DAY_MINUTES + t) == t
    ensures (day * DAY_MINUTES + t) / DAY_MINUTES == day
  {
  }

  /** Working hours in a zone two hours ahead: 2024-01-02T07:00Z is a Tuesday at 09:00 there. */
  lemma WorkingHours(defaults: Defaults)
    ensures IsTimeInSpan(RelativeSpan(Some(120 * MINUTE), Some(1), Some(5), 8 * 60, 20 * 60),
                         1_704_178_800_000_000_000, defaults) == Some(true)
  {
    assert LocalTime(19724, 9 * 60, 120 * MINUTE) == 1_704_178_800_000_000_000;
    SpanOfLocalTimes(19724, 9 * 60, 0, 120 * MINUTE, 1, 5, 8 * 60, 20 * 60, defaults);
  }

  /** What a span misses is taken from the defaults; a span missing what none provides has no answer. */
  lemma DefaultsFillIn(span: Span, now: Instant, defaults: Defaults)
    requires span.RelativeSpan?
    ensures span.timezone.None? && defaults.timezone.Some? ==>
              IsTimeInSpan(span, now, defaults) == IsTimeInSpan(span.(timezone := defaults.timezone), now, defaults)
    ensures span.weekdayFrom.None? && defaults.weekdayFrom.Some? ==>
              IsTimeInSpan(span, now, defaults) ==
              IsTimeInSpan(span.(weekdayFrom := defaults.weekdayFrom), now, defaults)
    ensures span.weekdayTo.None? && defaults.weekdayTo.Some? ==>
              IsTimeInSpan(span, now, defaults) == IsTimeInSpan(span.(weekdayTo := defaults.weekdayTo), now, defaults)
    ensures IsTimeInSpan(span, now, defaults).None? <==>
            || (span.timezone.None? && defaults.timezone.None?)
            || (span.weekdayFrom.None? && defaults.weekdayFrom.None?)
            || (span.weekdayTo.None? && defaults.weekdayTo.None?)
  {
  }

  /** The instants of the other kinds: the first edge is in, the last is out. */
  lemma SpanEdges(a: Instant, b: Instant, later: nat, defaults: Defaults)
    requires a < b
    ensures IsTimeInSpan(AbsoluteSpan(a, b), a, defaults) == Some(true)
    ensures IsTimeInSpan(AbsoluteSpan(a, b), b - 1, defaults) == Some(true)
    ensures IsTimeInSpan(AbsoluteSpan(a, b), a - 1 - later, defaults) == Some(false)
    ensures IsTimeInSpan(AbsoluteSpan(a, b), b + later, defaults) == Some(false)
    ensures IsTimeInSpan(DirectionalSpan(Some(From), a), a + later, defaults) == Some(true)
    ensures IsTimeInSpan(DirectionalSpan(Some(From), a), a - 1 - later, defaults) == Some(false)
    ensures IsTimeInSpan(DirectionalSpan(Some(Until), a), a + later, defaults) == Some(false)
    ensures IsTimeInSpan(DirectionalSpan(Some(Until), a), a - 1 - later, defaults) == Some(true)
    ensures IsTimeInSpan(DirectionalSpan(None, a), b, defaults) == None
    ensures IsTimeInSpan(DirectionalSpan(Some(UnknownMode), a), b, defaults) == None
    ensures IsTimeInSpan(BooleanSpan(true), a, defaults) == Some(true)
    ensures IsTimeInSpan(BooleanSpan(false), a, defaults) == Some(false)
  {
  }

  /** A relative span with nothing missing. */
  datatype WeekSpan = WeekSpan(from: Weekday, to: Weekday, timeFrom: DayTime, timeTo: DayTime) {
    predicate Has(minute: int) {
      MinuteInSpan(minute, from, to, timeFrom, timeTo)
    }

    predicate HasDay(day: int) {
      WeekdayInRange((day + 4) % 7, from, to)
    }

    function DayLength(): nat {
      RangeLength(timeFrom, timeTo)
    }

    /** The days of the week frame, both ends included. */
    function FrameDays(): nat {
      (to - from) % 7 + 1
    }
  }

  // ----- counting -----

  /** How many of the n minutes from `start` are in the span. */
  function CountMinutes(w: WeekSpan, start: int, n: nat): nat {
    if n == 0 then 0 else CountMinutes(w, start, n - 1) + Indicator(w.Has(start + n - 1))
  }

  lemma {:induction false} CountSplits(w: WeekSpan, start: int, m: nat, n: nat)
    ensures CountMinutes(w, start, m + n) == CountMinutes(w, start, m) + CountMinutes(w, start + m, n)
  {
    hide WeekSpan.Has;
    if n == 0 {
    } else {
      CountSplits(w, start, m, n - 1);
    }
  }

  lemma MembershipHasPeriodOneWeek(w: WeekSpan, minute: int)
    ensures w.Has(minute + WEEK) == w.Has(minute)
  {
    assert (minute + WEEK) / DAY_MINUTES == minute / DAY_MINUTES + 7;
    assert MinuteOfDay(minute + WEEK) == MinuteOfDay(minute);
    hide MinuteOfDay;
    assert WeekdayOf(minute + WEEK) == WeekdayOf(minute);
  }

  /** Sliding a window of one week by a minute changes nothing. */
  lemma CountSlides(w: WeekSpan, start: int)
    ensures CountMinutes(w, start + 1, WEEK) == CountMinutes(w, start, WEEK)
  {
    hide WeekSpan.Has;
    CountSplits(w, start, 1, WEEK - 1);
    CountSplits(w, start + 1, WEEK - 1, 1);
    MembershipHasPeriodOneWeek(w, start);
    assert CountMinutes(w, start, 1) == CountMinutes(w, start, 0) + Indicator(w.Has(start));
    assert CountMinutes(w, start + WEEK, 1) == CountMinutes(w, start + WEEK, 0) + Indicator(w.Has(start + WEEK));
  }

  lemma {:induction false} CountAnywhere(w: WeekSpan, origin: int, k: nat)
    ensures CountMinutes(w, origin + k, WEEK) == CountMinutes(w, origin, WEEK)
  {
    hide CountMinutes;
    if k == 0 {
    } else {
      CountAnywhere(w, origin, k - 1);
      CountSlides(w, origin + k - 1);
    }
  }

  // ----- one day -----

  lemma {:induction false} CountPrefixOfDay(w: WeekSpan, day: int, n: nat)
    requires n <= DAY_MINUTES
    ensures CountMinutes(w, day * DAY_MINUTES, n) ==
            if !w.HasDay(day) then 0
            else if w.timeFrom > w.timeTo then Min(w.timeTo, n) + (n - Min(w.timeFrom, n))
            else Min(w.timeTo, n) - Min(w.timeFrom, n)
  {
    if n == 0 {
    } else {
      CountPrefixOfDay(w, day, n - 1);
      DayArithmetic(day, n - 1);
      var minute := day * DAY_MINUTES + (n - 1);
      assert w.Has(minute) <==> w.HasDay(day) && TimeOfDayInRange(n - 1, w.timeFrom, w.timeTo);
    }
  }

  // ----- one week -----

  /** How many of the n days from day 3, a Sunday, are in the frame. */
  function DaysInFrame(w: WeekSpan, n: nat): nat {
    if n == 0 then 0 else DaysInFrame(w, n - 1) + Indicator(w.HasDay(n + 2))
  }

  /** How many of the weekdays below n are in the frame. */
  function FrameBelow(w: WeekSpan, n: nat): int {
    if w.from <= w.to then Min(w.to + 1, n) - Min(w.from, n) else Min(w.to + 1, n) + (n - Min(w.from, n))
  }

  lemma OneMoreDay(w: WeekSpan, n: nat)
    requires 1 <= n <= 7
    ensures FrameBelow(w, n) == FrameBelow(w, n - 1) + Indicator(w.HasDay(n + 2))
  {
    DayNumber(n);
  }

  lemma DayNumber(n: nat)
    requires 1 <= n <= 7
    ensures (n + 2 + 4) % 7 == n - 1
  {
  }

  lemma {:induction false} CountPrefixOfWeek(w: WeekSpan, n: nat)
    requires n <= 7
    ensures DaysInFrame(w, n) == FrameBelow(w, n)
  {
    if n == 0 {
    } else {
      hide FrameBelow, WeekSpan.HasDay;
      CountPrefixOfWeek(w, n - 1);
      OneMoreDay(w, n);
    }
  }

  lemma {:induction false} CountDays(w: WeekSpan, n: nat)
    ensures CountMinutes(w, 3 * DAY_MINUTES, n * DAY_MINUTES) == w.DayLength() * DaysInFrame(w, n)
  {
    hide WeekSpan.Has, WeekSpan.HasDay;
    if n == 0 {
    } else {
      CountDays(w, n - 1);
      CountSplits(w, 3 * DAY_MINUTES, (n - 1) * DAY_MINUTES, DAY_MINUTES);
      CountPrefixOfDay(w, n + 2, DAY_MINUTES);
      Distribute(w.DayLength(), DaysInFrame(w, n - 1), Indicator(w.HasDay(n + 2)));
    }
  }

  lemma Distribute(a: nat, b: nat, c: nat)
    ensures a * (b + c) == a * b + a * c
  {
  }

  lemma WholeFrame(w: WeekSpan)
    ensures FrameBelow(w, 7) == w.FrameDays()
  {
  }

  /** Every week of minutes, starting anywhere, has the same number of minutes in the span. */
  lemma AnyWeek(w: WeekSpan, start: int)
    ensures CountMinutes(w, start, WEEK) == w.DayLength() * w.FrameDays()
  {
    hide CountMinutes, DaysInFrame, FrameBelow, WeekSpan.DayLength, WeekSpan.FrameDays;
    var sunday := 3 * DAY_MINUTES;
    if start >= sunday {
      CountAnywhere(w, sunday, start - sunday);
    } else {
      CountAnywhere(w, start, sunday - start);
    }
    CountDays(w, 7);
    CountPrefixOfWeek(w, 7);
    WholeFrame(w);
  }

  /** How many of n instants, one minute apart, are in the span. */
  function InstantsInSpan(span: Span, defaults: Defaults, start: Instant, n: nat): nat {
    if n == 0 then 0
    else
      InstantsInSpan(span, defaults, start, n - 1) +
      Indicator(IsTimeInSpan(span, start + (n - 1) * MINUTE, defaults) == Some(true))
  }

  /** A relative span whose zone and weekdays are set, by itself or by a default. */
  predicate Complete(span: Span, defaults: Defaults) {
    span.RelativeSpan? && Or(span.timezone, defaults.timezone).Some? &&
    Or(span.weekdayFrom, defaults.weekdayFrom).Some? && Or(span.weekdayTo, defaults.weekdayTo).Some?
  }

  function ZoneOf(span: Span, defaults: Defaults): Timezone
    requires Complete(span, defaults)
  {
    Or(span.timezone, defaults.timezone).value
  }

  function OfSpan(span: Span, defaults: Defaults): WeekSpan
    requires Complete(span, defaults)
  {
    WeekSpan(Or(span.weekdayFrom, defaults.weekdayFrom).value, Or(span.weekdayTo, defaults.weekdayTo).value,
             span.timeFrom, span.timeTo)
  }

  lemma {:induction false} InstantsAreMinutes(span: Span, defaults: Defaults, start: Instant, n: nat)
    requires Complete(span, defaults)
    ensures InstantsInSpan(span, defaults, start, n) ==
            CountMinutes(OfSpan(span, defaults), LocalMinute(start, ZoneOf(span, defaults)), n)
  {
    hide MinuteInSpan;
    if n == 0 {
    } else {
      var zone := ZoneOf(span, defaults);
      InstantsAreMinutes(span, defaults, start, n - 1);
      assert LocalMinute(start + (n - 1) * MINUTE, zone) == LocalMinute(start, zone) + (n - 1);
    }
  }

  /** Any 10080 consecutive minutes, at any start and in any zone, hold exactly the span's minutes of a day
      times the days of its week frame, whoever sets the zone and the frame. */
  lemma WeeklyMeasure(span: Span, defaults: Defaults, start: Instant)
    requires Complete(span, defaults)
    ensures InstantsInSpan(span, defaults, start, WEEK) ==
            OfSpan(span, defaults).DayLength() * OfSpan(span, defaults).FrameDays()
  {
    InstantsAreMinutes(span, defaults, start, WEEK);
    AnyWeek(OfSpan(span, defaults), LocalMinute(start, ZoneOf(span, defaults)));
  }

  // ----- downtime and uptime -----

  function DownOnly(span: Span): Scopes {
    [EMPTY_SCOPE.(downTime := Some([span]))]
  }

  function UpOnly(span: Span): Scopes {
    [EMPTY_SCOPE.(upTime := Some([span]))]
  }

  lemma SingleSpanScaling(span: Span, now: Instant)
    ensures CurrentScaling(DownOnly(span), now) ==
            ScalingDecision(Contest(Answer(span, now), Not(Answer(span, now))), Some(0))
    ensures CurrentScaling(UpOnly(span), now) ==
            ScalingDecision(Contest(Not(Answer(span, now)), Answer(span, now)), Some(0))
  {
    NoDefaults(EMPTY_SCOPE.(downTime := Some([span])));
    NoDefaults(EMPTY_SCOPE.(upTime := Some([span])));
    SingletonAnswers(span, now);
    assert FirstSchedule(DownOnly(span), 0) && NoForce(DownOnly(span));
    assert FirstSchedule(UpOnly(span), 0) && NoForce(UpOnly(span));
  }

  lemma NoDefaults(scope: Scope)
    requires scope.defaultTimezone.None? && scope.defaultWeekFrame.None?
    ensures DefaultsOf([scope]) == NONE
  {
    assert [scope][1..] == [];
    assert DefaultTimezone([]).None? && DefaultWeekdayFrom([]).None? && DefaultWeekdayTo([]).None?;
  }

  lemma SingletonAnswers(span: Span, now: Instant)
    ensures InSpans([span], now, NONE) == Answer(span, now)
  {
  }

  const NONE := Defaults(None, None, None)

  function Answer(span: Span, now: Instant): Option<bool> {
    IsTimeInSpan(span, now, NONE)
  }

  /** The two scopes agree at an instant exactly when exactly one of the spans contains it, or both fail. */
  ghost predicate Dual(down: Span, up: Span) {
    forall now: Instant :: CurrentScaling(DownOnly(down), now) == CurrentScaling(UpOnly(up), now)
  }

  lemma DualExactly(down: Span, up: Span)
    ensures Dual(down, up) <==> forall now: Instant :: Answer(up, now) == Not(Answer(down, now))
  {
    forall now: Instant
      ensures CurrentScaling(DownOnly(down), now) == CurrentScaling(UpOnly(up), now) <==>
              Answer(up, now) == Not(Answer(down, now))
    {
      SingleSpanScaling(down, now);
      SingleSpanScaling(up, now);
    }
  }

  /** Swapping the two times of a span turns a downtime into the same uptime exactly when the times differ and
      the week frame has all seven days. */
  lemma SwappedTimesAreDual(zone: Timezone, from: Weekday, to: Weekday, timeFrom: DayTime, timeTo: DayTime)
    ensures Dual(RelativeSpan(Some(zone), Some(from), Some(to), timeFrom, timeTo),
                 RelativeSpan(Some(zone), Some(from), Some(to), timeTo, timeFrom)) <==>
            timeFrom != timeTo && CoversWeek(from, to)
  {
    var down := RelativeSpan(Some(zone), Some(from), Some(to), timeFrom, timeTo);
    var up := RelativeSpan(Some(zone), Some(from), Some(to), timeTo, timeFrom);
    DualExactly(down, up);
    if timeFrom == timeTo {
      assert Answer(up, 0) == Answer(down, 0) == Some(false);
    } else if !CoversWeek(from, to) {
      var day := DayOutside(from, to);
      var now := day * DAY_MINUTES * MINUTE - zone;
      assert now + zone == (day * DAY_MINUTES) * MINUTE;
      assert LocalMinute(now, zone) == day * DAY_MINUTES;
      DayArithmetic(day, 0);
      assert Answer(up, now) == Answer(down, now) == Some(false);
    } else {
      forall now: Instant ensures Answer(up, now) == Not(Answer(down, now)) {
        EveryDayInFullFrame(from, to, WeekdayOf(LocalMinute(now, zone)));
      }
    }
  }

  predicate CoversWeek(from: Weekday, to: Weekday) {
    (to - from) % 7 == 6
  }

  lemma DayOutside(from: Weekday, to: Weekday) returns (day: int)
    requires !CoversWeek(from, to)
    ensures !WeekdayInRange((day + 4) % 7, from, to)
  {
    day := to + 4;
    assert (day + 4) % 7 == (to + 1) % 7;
  }

  lemma EveryDayInFullFrame(from: Weekday, to: Weekday, weekday: Weekday)
    requires CoversWeek(from, to)
    ensures WeekdayInRange(weekday, from, to)
  {
  }

  /** "until T" as a downtime is "from T" as an uptime. */
  lemma UntilAndFromAreDual(time: Instant)
    ensures Dual(DirectionalSpan(Some(Until), time), DirectionalSpan(Some(From), time))
  {
    DualExactly(DirectionalSpan(Some(Until), time), DirectionalSpan(Some(From), time));
  }

  /** Two absolute spans that meet are disjoint and together are the span over both. */
  lemma AdjacentSpansJoin(a: Instant, b: Instant, c: Instant, now: Instant, defaults: Defaults)
    requires a <= b <= c
    ensures var first := IsTimeInSpan(AbsoluteSpan(a, b), now, defaults);
            var second := IsTimeInSpan(AbsoluteSpan(b, c), now, defaults);
            && !(first == Some(true) && second == Some(true))
            && InSpans([AbsoluteSpan(a, b), AbsoluteSpan(b, c)], now, defaults) ==
               IsTimeInSpan(AbsoluteSpan(a, c), now, defaults)
  {
    var spans := [AbsoluteSpan(a, b), AbsoluteSpan(b, c)];
    assert spans[1..] == [AbsoluteSpan(b, c)] && spans[1..][1..] == [];
    assert InSpans([], now, defaults) == Some(false);
    assert InSpans(spans[1..], now, defaults) == IsTimeInSpan(AbsoluteSpan(b, c), now, defaults);
  }
}
