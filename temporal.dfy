/** The slice of java.time the builders call into: the ChronoUnit enumeration,
    which units each temporal kind supports, and `plus(amount, unit)`.

    Every temporal value is an integer position on its kind's own scale:
      - LocalDate: the epoch day;
      - YearMonth: the month index (12 * year + month - 1);
      - LocalDateTime: the nanosecond on the local time-line.
    On that scale a unit either has a fixed length (a week is 7 days, a
    decade is 120 months, an hour is 3.6e12 nanoseconds) or a length that
    depends on the calendar (a month of days). The second kind is delegated
    to a `Calendar` function supplied by the caller. */
module Temporal {
  import opened Base

  datatype ChronoUnit =
    | Nanos | Micros | Millis | Seconds | Minutes | Hours | HalfDays
    | Days | Weeks | Months | Years | Decades | Centuries | Millennia | Eras
    | Forever

  /** The three temporal kinds that have a builder. */
  datatype Kind = LocalDate | YearMonth | LocalDateTime

  /** Calendar arithmetic for units of varying length: `calendar(v, n, u)` is
      `v` advanced by `n` units `u`. It is only consulted for a supported unit
      without a fixed length, and only when `n != 0`. */
  type Calendar = (int, int, ChronoUnit) -> int

  /** ChronoUnit.isDateBased(): DAYS and every longer unit except FOREVER. */
  predicate IsDateBased(u: ChronoUnit) {
    !u.Forever? && !(u.Nanos? || u.Micros? || u.Millis? || u.Seconds? || u.Minutes? || u.Hours? || u.HalfDays?)
  }

  /** Whether `kind.plus(n, u)` accepts `u` (LocalDate.isSupported(u) and so on). */
  predicate IsSupported(kind: Kind, u: ChronoUnit) {
    match kind
    case LocalDate => IsDateBased(u)
    case YearMonth => IsDateBased(u) && !u.Days? && !u.Weeks?
    case LocalDateTime => !u.Forever?
  }

  /** The length of one `u` on `kind`'s scale, when it does not depend on the calendar. */
  function FixedLength(kind: Kind, u: ChronoUnit): (len: Option<nat>)
    ensures len.Some? ==> IsSupported(kind, u) && len.value >= 1
  {
    match kind
    case LocalDate =>
      (match u
       case Days => Some(1)
       case Weeks => Some(7)
       case _ => None)
    case YearMonth =>
      (match u
       case Months => Some(1)
       case Years => Some(12)
       case Decades => Some(120)
       case Centuries => Some(1_200)
       case Millennia => Some(12_000)
       case _ => None)
    case LocalDateTime =>
      (match u
       case Nanos => Some(1)
       case Micros => Some(1_000)
       case Millis => Some(1_000_000)
       case Seconds => Some(1_000_000_000)
       case Minutes => Some(60_000_000_000)
       case Hours => Some(3_600_000_000_000)
       case HalfDays => Some(43_200_000_000_000)
       case Days => Some(86_400_000_000_000)
       case Weeks => Some(604_800_000_000_000)
       case _ => None)
  }

  /** `v.plus(n, u)` for a value `v` of the given kind. */
  function Plus(kind: Kind, calendar: Calendar, v: int, n: int, u: ChronoUnit): (r: Result<int>)
    ensures r.Ok? <==> IsSupported(kind, u)
    ensures !IsSupported(kind, u) ==> r == Err(UnsupportedTemporalType)
    ensures r.Ok? && n == 0 ==> r.value == v
    ensures FixedLength(kind, u).Some? ==> r == Ok(v + n * FixedLength(kind, u).value)
  {
    if !IsSupported(kind, u) then Err(UnsupportedTemporalType)
    else match FixedLength(kind, u)
      case Some(len) => Ok(v + n * len)
      case None => Ok(if n == 0 then v else calendar(v, n, u))
  }

  /** java.time.Period: three independent signed fields. */
  datatype Period = Period(years: int32, months: int32, days: int32)

  /** java.time.Duration: signed whole seconds plus a nanosecond adjustment. */
  datatype Duration = Duration(seconds: int, nanos: int)
}
