/** The naive `datetime.date`, `datetime.time`, `datetime.datetime` and
    `datetime.timedelta` values the codecs carry, with the argument checks of
    their constructors. */
module Temporal {
  import opened Wrappers

  const MinYear := 1
  const MaxYear := 9999
  const MicrosPerSecond := 1000000
  const SecondsPerDay := 86400
  const MicrosPerDay := SecondsPerDay * MicrosPerSecond
  /** `timedelta.max.days`: a timedelta's day count lies in -999999999..999999999. */
  const MaxDeltaDays := 999999999

  datatype Date = Date(year: int, month: int, day: int)
  datatype Time = Time(hour: int, minute: int, second: int, microsecond: int)
  datatype DateTime = DateTime(date: Date, time: Time)

  /** A timedelta, as its exact number of microseconds
      (`(days * 86400 + seconds) * 10**6 + microseconds`). */
  datatype Timedelta = Timedelta(micros: int)

  /** Why a constructor refused its arguments: the message of its `ValueError`. */
  datatype RangeError = RangeError(message: string)

  predicate IsLeap(year: int) {
    year % 4 == 0 && (year % 100 != 0 || year % 400 == 0)
  }

  function DaysInMonth(year: int, month: int): (n: int)
    requires 1 <= month <= 12
    ensures 28 <= n <= 31
  {
    if month == 2 then (if IsLeap(year) then 29 else 28)
    else if month == 4 || month == 6 || month == 9 || month == 11 then 30
    else 31
  }

  predicate ValidDate(d: Date) {
    MinYear <= d.year <= MaxYear && 1 <= d.month <= 12 && 1 <= d.day <= DaysInMonth(d.year, d.month)
  }

  predicate ValidTime(t: Time) {
    0 <= t.hour <= 23 && 0 <= t.minute <= 59 && 0 <= t.second <= 59 && 0 <= t.microsecond <= 999999
  }

  predicate ValidDateTime(dt: DateTime) {
    ValidDate(dt.date) && ValidTime(dt.time)
  }

  function MinDeltaMicros(): int { -MaxDeltaDays * MicrosPerDay }
  function MaxDeltaMicros(): int { (MaxDeltaDays + 1) * MicrosPerDay - 1 }

  predicate ValidTimedelta(td: Timedelta) {
    MinDeltaMicros() <= td.micros <= MaxDeltaMicros()
  }

  /** The range checks of `date(year, month, day)`, in the order the
      constructor makes them. */
  function CheckDate(year: int, month: int, day: int): (r: Result<Date, RangeError>)
    ensures r.Success? <==> ValidDate(Date(year, month, day))
    ensures r.Success? ==> r.value == Date(year, month, day)
    ensures !(MinYear <= year <= MaxYear) ==> r == Failure(RangeError("year is out of range"))
    ensures MinYear <= year <= MaxYear && !(1 <= month <= 12) ==> r == Failure(RangeError("month must be in 1..12"))
    ensures MinYear <= year <= MaxYear && 1 <= month <= 12 && !(1 <= day <= DaysInMonth(year, month)) ==>
              r == Failure(RangeError("day is out of range for month"))
  {
    if !(MinYear <= year <= MaxYear) then Failure(RangeError("year is out of range"))
    else if !(1 <= month <= 12) then Failure(RangeError("month must be in 1..12"))
    else if !(1 <= day <= DaysInMonth(year, month)) then Failure(RangeError("day is out of range for month"))
    else Success(Date(year, month, day))
  }

  /** The range checks of `time(hour, minute, second, microsecond)`, in order. */
  function CheckTime(hour: int, minute: int, second: int, microsecond: int): (r: Result<Time, RangeError>)
    ensures r.Success? <==> ValidTime(Time(hour, minute, second, microsecond))
    ensures r.Success? ==> r.value == Time(hour, minute, second, microsecond)
    ensures !(0 <= hour <= 23) ==> r == Failure(RangeError("hour must be in 0..23"))
    ensures 0 <= hour <= 23 && !(0 <= minute <= 59) ==> r == Failure(RangeError("minute must be in 0..59"))
    ensures 0 <= hour <= 23 && 0 <= minute <= 59 && !(0 <= second <= 59) ==>
              r == Failure(RangeError("second must be in 0..59"))
    ensures 0 <= hour <= 23 && 0 <= minute <= 59 && 0 <= second <= 59 && !(0 <= microsecond <= 999999) ==>
              r == Failure(RangeError("microsecond must be in 0..999999"))
  {
    if !(0 <= hour <= 23) then Failure(RangeError("hour must be in 0..23"))
    else if !(0 <= minute <= 59) then Failure(RangeError("minute must be in 0..59"))
    else if !(0 <= second <= 59) then Failure(RangeError("second must be in 0..59"))
    else if !(0 <= microsecond <= 999999) then Failure(RangeError("microsecond must be in 0..999999"))
    else Success(Time(hour, minute, second, microsecond))
  }

  /** `datetime(...)` checks the date fields first, then the time fields. */
  function CheckDateTime(year: int, month: int, day: int, hour: int, minute: int, second: int, microsecond: int)
    : (r: Result<DateTime, RangeError>)
    ensures r.Success? <==> ValidDateTime(DateTime(Date(year, month, day), Time(hour, minute, second, microsecond)))
    ensures r.Success? ==> r.value == DateTime(Date(year, month, day), Time(hour, minute, second, microsecond))
    ensures !ValidDate(Date(year, month, day)) ==> r == Failure(CheckDate(year, month, day).error)
  {
    var date :- CheckDate(year, month, day);
    var time :- CheckTime(hour, minute, second, microsecond);
    Success(DateTime(date, time))
  }

  /** `td.total_seconds()`, exactly. */
  function TotalSeconds(td: Timedelta): real {
    td.micros as real / MicrosPerSecond as real
  }

  /** Rounds to the nearest integer, halves away from zero, as the `timedelta`
      constructor does with a fractional microsecond left over. */
  function RoundHalfAway(x: real): (n: int)
    ensures x - 0.5 <= n as real <= x + 0.5
    ensures n as real == x + 0.5 ==> x >= 0.0
    ensures n as real == x - 0.5 ==> x < 0.0
  {
    if x >= 0.0 then (x + 0.5).Floor else -((-x + 0.5).Floor)
  }

  /** `timedelta(seconds=x)`: the nearest whole number of microseconds, or
      `None` for the `OverflowError` a day count beyond 999999999 raises. */
  function TimedeltaFromSeconds(x: real): (r: Option<Timedelta>)
    ensures r.Some? <==> ValidTimedelta(Timedelta(RoundHalfAway(x * MicrosPerSecond as real)))
    ensures r.Some? ==> r.value.micros as real - 0.5 <= x * MicrosPerSecond as real <= r.value.micros as real + 0.5
  {
    var td := Timedelta(RoundHalfAway(x * MicrosPerSecond as real));
    if ValidTimedelta(td) then Some(td) else None
  }

  /** A whole number of seconds converts without rounding. */
  function TimedeltaFromWholeSeconds(n: int): (r: Option<Timedelta>)
    ensures r.Some? <==> ValidTimedelta(Timedelta(n * MicrosPerSecond))
    ensures r.Some? ==> r.value.micros == n * MicrosPerSecond
  {
    var td := Timedelta(n * MicrosPerSecond);
    if ValidTimedelta(td) then Some(td) else None
  }

  lemma RoundWhole(n: int)
    ensures RoundHalfAway(n as real) == n
  {
    if n >= 0 {
      assert (n as real + 0.5).Floor == n;
    } else {
      assert (-(n as real) + 0.5).Floor == -n;
    }
  }

  /** `timedelta(seconds=td.total_seconds()) == td` for every timedelta, when
      the seconds are carried exactly. */
  lemma TotalSecondsRoundTrip(td: Timedelta)
    requires ValidTimedelta(td)
    ensures TimedeltaFromSeconds(TotalSeconds(td)) == Some(td)
  {
    assert TotalSeconds(td) * MicrosPerSecond as real == td.micros as real;
    RoundWhole(td.micros);
  }
}
