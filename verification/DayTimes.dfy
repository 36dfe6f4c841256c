/** The two halves of a time of day (`internal/pkg/values/dayTime.go`). */
module DayTimes {
  import opened Wrappers
  import opened Decimal
  import opened TimeSpans

  const HOUR := 60

  /** parseDayTime on the texts before and after the colon: hours up to 24, minutes below 60. */
  method ParseDayTime(hourText: string, minuteText: string) returns (r: Option<DayTime>)
    ensures r == ReadDayTime(hourText, minuteText)
  {
    var result := 0;
    var hour := ParseInt64(hourText);
    if hour.None? || hour.value < 0 || hour.value > 24 {
      return None;
    }
    result := result + hour.value * HOUR;
    var minute := ParseInt64(minuteText);
    if minute.None? || minute.value < 0 || minute.value >= 60 {
      return None;
    }
    result := result + minute.value;
    return Some(result);
  }

  function ReadDayTime(hourText: string, minuteText: string): Option<DayTime> {
    match (ParseInt64(hourText), ParseInt64(minuteText))
    case (Some(h), Some(m)) => if 0 <= h <= 24 && 0 <= m < 60 then Some(h * HOUR + m) else None
    case _ => None
  }

  /** `%02d` */
  function TwoDigits(n: nat): string {
    if n < 10 then "0" + Itoa(n) else Itoa(n)
  }

  /** Every legal time of day, 24:59 included, reads back from how it is printed. */
  lemma PrintedDayTimeReads(t: DayTime)
    ensures ReadDayTime(TwoDigits(t / HOUR), TwoDigits(t % HOUR)) == Some(t)
  {
    TwoDigitsRead(t / HOUR);
    TwoDigitsRead(t % HOUR);
  }

  lemma TwoDigitsRead(n: nat)
    requires n < 100
    ensures ParseInt64(TwoDigits(n)) == Some(n)
  {
    ScanIntOfPrinted(n, MIN_INT64, MAX_INT64);
    if n < 10 {
      var text := TwoDigits(n);
      assert text == [DigitChar(0), DigitChar(n)];
      assert text[1..] == [DigitChar(n)] && text[1..][1..] == [];
      assert ScanDigits(text, 0) == ScanDigits([DigitChar(n)], 0);
      assert ScanDigits([DigitChar(n)], 0) == ScanDigits([], n);
    }
  }
}
