/** The date arithmetic of lib/scheduler.ts. A calendar day is an
    integer day number (day 0 is 1970-01-01, a Thursday) in the local
    time zone; an instant is a number of local minutes since that day's
    midnight. Reminders are anchored at 09:00 local time. */
module Calendar {
  import opened Wrappers
  import opened Strings

  const MinutesPerDay: int := 1440
  const DueMinute: int := 9 * 60

  /** `Date.prototype.getDay`: 0 is Sunday, 6 is Saturday. */
  function Weekday(day: int): (r: int)
    ensures 0 <= r < 7
  {
    (day + 4) % 7
  }

  /** `isWeekend`. */
  predicate IsWeekend(day: int) {
    Weekday(day) == 0 || Weekday(day) == 6
  }

  /** The instant of 09:00 on a day. */
  function At(day: int): int {
    day * MinutesPerDay + DueMinute
  }

  /** The day an instant falls on. */
  function DayOf(t: int): int {
    t / MinutesPerDay
  }

  lemma DayOfAt(day: int)
    ensures DayOf(At(day)) == day
  {
  }

  /** `At` is strictly increasing, so comparing instants compares days. */
  lemma AtMonotone(d1: int, d2: int)
    ensures d1 <= d2 <==> At(d1) <= At(d2)
  {
  }

  /** No three consecutive days are all on a weekend. */
  lemma WeekendsAreShort(d: int)
    ensures !(IsWeekend(d) && IsWeekend(d + 1) && IsWeekend(d + 2))
  {
    var w := Weekday(d);
    assert Weekday(d + 1) == (w + 1) % 7;
    assert Weekday(d + 2) == (w + 2) % 7;
  }

  /** The first day on or after `day` that is not a Saturday or Sunday:
      at most two days later, and `day` itself when it is a weekday. */
  function FirstWeekdayFrom(day: int): (r: int)
    ensures day <= r <= day + 2
    ensures !IsWeekend(r)
    ensures forall k :: day <= k < r ==> IsWeekend(k)
  {
    if !IsWeekend(day) then day
    else if !IsWeekend(day + 1) then day + 1
    else day + 2
  }

  /** `nextWeekday`: step forward one day at a time while on a weekend. */
  method NextWeekday(d: int) returns (r: int)
    ensures r == FirstWeekdayFrom(d)
  {
    r := d;
    while IsWeekend(r)
      invariant d <= r <= d + 2
      invariant forall k :: d <= k < r ==> IsWeekend(k)
      decreases d + 2 - r
    {
      WeekendsAreShort(d);
      r := r + 1;
    }
  }

  datatype Civil = Civil(year: int, month: int, day: int)

  /** Day number of a proleptic Gregorian date; days past the end of a
      month roll over into the next month, as `Date` does. */
  function DaysFromCivil(c: Civil): int {
    var y := if c.month <= 2 then c.year - 1 else c.year;
    var era := y / 400;
    var yoe := y - era * 400;
    var mp := if c.month > 2 then c.month - 3 else c.month + 9;
    var doy := (153 * mp + 2) / 5 + c.day - 1;
    var doe := yoe * 365 + yoe / 4 - yoe / 100 + doy;
    era * 146097 + doe - 719468
  }

  /** Calendar date of a day number. */
  function CivilFromDays(days: int): Civil {
    var z := days + 719468;
    var era := z / 146097;
    var doe := z % 146097;
    var yoe := (doe - doe / 1460 + doe / 36524 - doe / 146096) / 365;
    var y := yoe + era * 400;
    var doy := doe - (365 * yoe + yoe / 4 - yoe / 100);
    var mp := (5 * doy + 2) / 153;
    var d := doy - (153 * mp + 2) / 5 + 1;
    var m := if mp < 10 then mp + 3 else mp - 9;
    Civil(if m <= 2 then y + 1 else y, m, d)
  }

  /** `pad`: a leading zero below ten. */
  function Pad(n: int): string {
    if n < 10 then "0" + IntToString(n) else IntToString(n)
  }

  /** `YYYY-MM-DD` of a calendar date, the year unpadded. */
  function IsoOfCivil(c: Civil): string {
    IntToString(c.year) + "-" + Pad(c.month) + "-" + Pad(c.day)
  }

  /** `toISODate`: the local calendar date of a day, as `YYYY-MM-DD`. */
  function ToISODate(day: int): string {
    IsoOfCivil(CivilFromDays(day))
  }

  predicate AllDigits(s: string) {
    forall i :: 0 <= i < |s| ==> IsDigit(s[i])
  }

  /** Reads `YYYY-MM-DD` back into its three numbers. */
  function ParseIsoCivil(s: string): Option<Civil> {
    if |s| == 10 && s[4] == '-' && s[7] == '-'
       && AllDigits(s[..4]) && AllDigits(s[5..7]) && AllDigits(s[8..])
    then Some(Civil(DigitsValue(s[..4]), DigitsValue(s[5..7]), DigitsValue(s[8..])))
    else None
  }

  /** The due day of `new Date(dueDate + 'T09:00:00')`: a `YYYY-MM-DD`
      string with a month from 1 to 12 and a day from 1 to 31; anything
      else is an invalid date (`None`). */
  function ParseIsoDay(s: string): (r: Option<int>)
    ensures r.Some? ==> ParseIsoCivil(s).Some? && r.value == DaysFromCivil(ParseIsoCivil(s).value)
    ensures r.Some? ==> 1 <= ParseIsoCivil(s).value.month <= 12 && 1 <= ParseIsoCivil(s).value.day <= 31
    ensures (ParseIsoCivil(s).Some? && 1 <= ParseIsoCivil(s).value.month <= 12
             && 1 <= ParseIsoCivil(s).value.day <= 31) ==> r.Some?
  {
    match ParseIsoCivil(s)
    case None => None
    case Some(c) =>
      if 1 <= c.month <= 12 && 1 <= c.day <= 31 then Some(DaysFromCivil(c)) else None
  }

  lemma {:induction false} NatToStringFourDigits(n: nat)
    requires 1000 <= n <= 9999
    ensures |NatToString(n)| == 4
  {
    var a := n / 10;
    var b := a / 10;
    var c := b / 10;
    assert 100 <= a <= 999 && 10 <= b <= 99 && 1 <= c <= 9;
    assert |NatToString(c)| == 1;
    assert |NatToString(b)| == 2;
    assert |NatToString(a)| == 3;
  }

  lemma {:induction false} PadTwoDigits(n: int)
    requires 1 <= n <= 99
    ensures |Pad(n)| == 2 && AllDigits(Pad(n)) && DigitsValue(Pad(n)) == n
  {
    if n < 10 {
      assert Pad(n) == ['0', DigitChar(n)];
      assert Pad(n)[..1] == ['0'];
    } else {
      assert NatToString(n) == NatToString(n / 10) + [DigitChar(n % 10)];
    }
  }

  /** Writing a four-digit-year date and reading it back gives the same
      date: the date in a reminder id identifies the calendar day. */
  lemma IsoRoundTrip(c: Civil)
    requires 1000 <= c.year <= 9999 && 1 <= c.month <= 12 && 1 <= c.day <= 31
    ensures |IsoOfCivil(c)| == 10
    ensures ParseIsoCivil(IsoOfCivil(c)) == Some(c)
  {
    var ys, ms, ds := IntToString(c.year), Pad(c.month), Pad(c.day);
    NatToStringFourDigits(c.year);
    PadTwoDigits(c.month);
    PadTwoDigits(c.day);
    var s := IsoOfCivil(c);
    assert s == ys + "-" + ms + "-" + ds;
    assert s[..4] == ys;
    assert s[5..7] == ms;
    assert s[8..] == ds;
  }

  /** Day 0 is Thursday 1970-01-01. */
  lemma EpochAnchor()
    ensures DaysFromCivil(Civil(1970, 1, 1)) == 0 && Weekday(0) == 4
    ensures CivilFromDays(0) == Civil(1970, 1, 1)
  {
    EpochDays();
    EpochDate();
  }

  lemma EpochDays()
    ensures DaysFromCivil(Civil(1970, 1, 1)) == 0
  {
    assert 1969 / 400 == 4 && (153 * 10 + 2) / 5 == 306;
    assert 369 * 365 + 369 / 4 - 369 / 100 + 306 == 135080;
  }

  lemma EpochDate()
    ensures CivilFromDays(0) == Civil(1970, 1, 1)
  {
    assert 719468 / 146097 == 4 && 719468 % 146097 == 135080;
    assert (135080 - 135080 / 1460 + 135080 / 36524 - 135080 / 146096) / 365 == 369;
    assert (5 * 306 + 2) / 153 == 10;
  }

  /** 2025-01-10 is a Friday. */
  lemma FridayAnchor()
    ensures DaysFromCivil(Civil(2025, 1, 10)) == 20098 && Weekday(20098) == 5
    ensures CivilFromDays(20098) == Civil(2025, 1, 10)
  {
    assert 739566 / 146097 == 5 && 739566 % 146097 == 9081;
    assert (9081 - 9081 / 1460 + 9081 / 36524 - 9081 / 146096) / 365 == 24;
    assert (5 * 315 + 2) / 153 == 10;
  }

  lemma FridayIso()
    ensures ToISODate(20098) == "2025-01-10"
  {
    FridayAnchor();
    assert NatToString(2025) == "2025" by {
      assert NatToString(2) == "2";
      assert NatToString(20) == "20";
      assert NatToString(202) == "202";
    }
    assert Pad(1) == "01";
    assert Pad(10) == "10" by { assert NatToString(1) == "1"; }
  }
}
