/** Time spans and lists of them (`internal/pkg/values/timespan.go`). The clock is one instant per
    decision: the source reads it again for every span. */
module TimeSpans {
  import opened Wrappers

  /** Nanoseconds since 1970-01-01T00:00Z, a Thursday. */
  type Instant = int

  const MINUTE := 60_000_000_000
  const DAY_MINUTES := 1440

  /** Sunday is 0. */
  type Weekday = d: int | 0 <= d < 7

  /** Minutes into the day, as parsed: hours 0 to 24 and minutes 0 to 59, so 24:59 is legal. */
  type DayTime = t: int | 0 <= t < 1500

  /** A fixed offset from UTC, in nanoseconds. */
  type Timezone = int

  datatype Mode = From | Until | UnknownMode

  datatype Span =
    | RelativeSpan(timezone: Option<Timezone>, weekdayFrom: Option<Weekday>, weekdayTo: Option<Weekday>,
                   timeFrom: DayTime, timeTo: DayTime)
    | AbsoluteSpan(from: Instant, to: Instant)
    | DirectionalSpan(mode: Option<Mode>, time: Instant)
    | BooleanSpan(active: bool)

  /** What the scopes offer to spans with missing parts. */
  datatype Defaults = Defaults(timezone: Option<Timezone>, weekdayFrom: Option<Weekday>, weekdayTo: Option<Weekday>)

  // ----- the local clock -----

  function LocalMinute(now: Instant, zone: Timezone): int {
    (now + zone) / MINUTE
  }

  function MinuteOfDay(minute: int): (t: int)
    ensures 0 <= t < DAY_MINUTES
  {
    minute % DAY_MINUTES
  }

  function WeekdayOf(minute: int): Weekday {
    (minute / DAY_MINUTES + 4) % 7
  }

  // ----- one span -----

  predicate WeekdayInRange(weekday: Weekday, from: Weekday, to: Weekday) {
    if from <= to then from <= weekday <= to else weekday >= from || weekday <= to
  }

  predicate TimeOfDayInRange(timeOfDay: int, from: DayTime, to: DayTime) {
    if from > to then timeOfDay >= from || timeOfDay < to else from <= timeOfDay < to
  }

  predicate MinuteInSpan(minute: int, weekdayFrom: Weekday, weekdayTo: Weekday, timeFrom: DayTime, timeTo: DayTime) {
    TimeOfDayInRange(MinuteOfDay(minute), timeFrom, timeTo) &&
    WeekdayInRange(WeekdayOf(minute), weekdayFrom, weekdayTo)
  }

  function Or<T>(own: Option<T>, default: Option<T>): Option<T> {
    if own.Some? then own else default
  }

  /** isTimeInSpan; None is the error of a span that is missing something nobody provides. */
  function IsTimeInSpan(span: Span, now: Instant, defaults: Defaults): Option<bool> {
    match span
    case RelativeSpan(timezone, weekdayFrom, weekdayTo, timeFrom, timeTo) =>
      var zone := Or(timezone, defaults.timezone);
      var from := Or(weekdayFrom, defaults.weekdayFrom);
      var to := Or(weekdayTo, defaults.weekdayTo);
      if zone.None? || from.None? || to.None? then None
      else Some(MinuteInSpan(LocalMinute(now, zone.value), from.value, to.value, timeFrom, timeTo))
    case AbsoluteSpan(from, to) => Some(from <= now < to)
    case DirectionalSpan(mode, time) =>
      (match mode
       case Some(From) => Some(now >= time)
       case Some(Until) => Some(now < time)
       case _ => None)
    case BooleanSpan(active) => Some(active)
  }

  // ----- a list of spans -----

  /** inTimeSpans for a set list: spans are looked at in order until one contains the instant or fails. */
  function InSpans(spans: seq<Span>, now: Instant, defaults: Defaults): Option<bool> {
    if spans == [] then Some(false)
    else
      match IsTimeInSpan(spans[0], now, defaults)
      case None => None
      case Some(true) => Some(true)
      case Some(false) => InSpans(spans[1..], now, defaults)
  }

  /** An unset list contains no instant. */
  function InTimeSpans(spans: Option<seq<Span>>, now: Instant, defaults: Defaults): Option<bool> {
    if spans.Some? then InSpans(spans.value, now, defaults) else Some(false)
  }

  method CheckTimeSpans(spans: Option<seq<Span>>, now: Instant, defaults: Defaults) returns (r: Option<bool>)
    ensures r == InTimeSpans(spans, now, defaults)
  {
    if spans.None? {
      return Some(false);
    }
    for i := 0 to |spans.value|
      invariant InSpans(spans.value, now, defaults) == InSpans(spans.value[i..], now, defaults)
    {
      var isTimeInSpan := IsTimeInSpan(spans.value[i], now, defaults);
      if isTimeInSpan.None? {
        return None;
      }
      if !isTimeInSpan.value {
        continue;
      }
      return Some(true);
    }
    return Some(false);
  }

  /** The first span that is not simply outside decides. */
  ghost predicate Deciding(spans: seq<Span>, now: Instant, defaults: Defaults, i: nat)
    requires i < |spans|
  {
    IsTimeInSpan(spans[i], now, defaults) != Some(false) &&
    forall j :: 0 <= j < i ==> IsTimeInSpan(spans[j], now, defaults) == Some(false)
  }

  lemma {:induction false} FirstSpanDecides(spans: seq<Span>, now: Instant, defaults: Defaults)
    ensures forall i :: 0 <= i < |spans| && Deciding(spans, now, defaults, i) ==>
              InSpans(spans, now, defaults) == IsTimeInSpan(spans[i], now, defaults)
    ensures InSpans(spans, now, defaults) == Some(false) <==>
            forall i :: 0 <= i < |spans| ==> IsTimeInSpan(spans[i], now, defaults) == Some(false)
  {
    if spans == [] {
    } else {
      var rest := spans[1..];
      FirstSpanDecides(rest, now, defaults);
      forall i | 0 <= i < |spans| && Deciding(spans, now, defaults, i)
        ensures InSpans(spans, now, defaults) == IsTimeInSpan(spans[i], now, defaults)
      {
        if i > 0 {
          assert forall j :: 0 <= j < |rest| ==> rest[j] == spans[j + 1];
          assert Deciding(rest, now, defaults, i - 1);
        }
      }
      if forall i :: 0 <= i < |rest| ==> IsTimeInSpan(rest[i], now, defaults) == Some(false) {
        assert forall i :: 1 <= i < |spans| ==> spans[i] == rest[i - 1];
      } else {
        var k :| 0 <= k < |rest| && IsTimeInSpan(rest[k], now, defaults) != Some(false);
        assert spans[k + 1] == rest[k];
      }
    }
  }

  // ----- defaults -----

  predicate Keeps<T(==)>(before: Option<T>, after: Option<T>) {
    before.Some? ==> after == before
  }

  /** Every default that was there is still there and the same. */
  predicate Extends(before: Defaults, after: Defaults) {
    Keeps(before.timezone, after.timezone) && Keeps(before.weekdayFrom, after.weekdayFrom) &&
    Keeps(before.weekdayTo, after.weekdayTo)
  }

  /** More defaults never change an answer that could be given without them. */
  lemma {:induction false} MoreDefaultsSameAnswer(spans: seq<Span>, now: Instant, before: Defaults, after: Defaults)
    requires Extends(before, after)
    ensures Keeps(InSpans(spans, now, before), InSpans(spans, now, after))
  {
    if spans == [] {
    } else {
      MoreDefaultsSameAnswer(spans[1..], now, before, after);
    }
  }
}
