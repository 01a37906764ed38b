/** The LocalDate builder. Dates are epoch days; the step defaults to one
    day. */
module LocalDates {
  import opened Base
  import opened Temporal
  import opened Spliterators
  import opened ComparableStream
  import opened Steps
  import opened StreamLaws

  class LocalDateStream {
    /** The range fields inherited from the abstract base class. */
    const range: ComparableRange
    /** Month, year and longer arithmetic, which java.time provides. */
    const calendar: Calendar
    /** The step in units, as stored: `every` may leave it negative. */
    var amount: int
    var unit: ChronoUnit

    constructor (from: int, calendar: Calendar)
      ensures fresh(range) && range.Config() == Range(from, None, false)
      ensures this.calendar == calendar && amount == 1 && unit == Days
    {
      range := new ComparableRange(from);
      this.calendar := calendar;
      amount := 1;
      unit := Days;
    }

    /** from(LocalDate): a null start is rejected and nothing is built;
        otherwise an unbounded range stepping one day at a time. */
    static method From(from: Option<int>, calendar: Calendar) returns (r: Result<LocalDateStream>)
      ensures from.None? ==> r == Err(NullPointer)
      ensures from.Some? ==>
        && r.Ok? && fresh(r.value) && fresh(r.value.range)
        && r.value.range.Config() == Range(from.value, None, false)
        && r.value.calendar == calendar && r.value.amount == 1 && r.value.unit == Days
    {
      if from.None? {
        return Err(NullPointer);
      }
      var s := new LocalDateStream(from.value, calendar);
      return Ok(s);
    }

    /** to(LocalDate): an inclusive end; null removes the end. */
    method To(to: Option<int>)
      modifies range
      ensures range.Config() == Range(range.from, to, false)
    {
      range.SetTo(to);
    }

    /** until(LocalDate): an exclusive end; null removes the end. */
    method Until(until: Option<int>)
      modifies range
      ensures range.Config() == Range(range.from, until, true)
    {
      range.SetUntil(until);
    }

    /** to(amount, unit): an inclusive end `amount` units after the start
        (before it when negative). A null unit, or one LocalDate does not
        support, throws before the range changes. */
    method ToRelative(n: int32, unit: Option<ChronoUnit>) returns (outcome: Outcome)
      modifies range
      ensures unit.None? ==> outcome == Fail(NullPointer) && range.Config() == old(range.Config())
      ensures unit.Some? ==>
        match Plus(LocalDate, calendar, range.from, n as int, unit.value)
        case Ok(end) => outcome == Pass && range.Config() == Range(range.from, Some(end), false)
        case Err(e) => outcome == Fail(e) && range.Config() == old(range.Config())
    {
      if unit.None? {
        return Fail(NullPointer);
      }
      var end := Plus(LocalDate, calendar, range.from, n as int, unit.value);
      if end.Err? {
        return Fail(end.error);
      }
      range.SetTo(Some(end.value));
      outcome := Pass;
    }

    /** until(amount, unit): as ToRelative, but the end is exclusive. */
    method UntilRelative(n: int32, unit: Option<ChronoUnit>) returns (outcome: Outcome)
      modifies range
      ensures unit.None? ==> outcome == Fail(NullPointer) && range.Config() == old(range.Config())
      ensures unit.Some? ==>
        match Plus(LocalDate, calendar, range.from, n as int, unit.value)
        case Ok(end) => outcome == Pass && range.Config() == Range(range.from, Some(end), true)
        case Err(e) => outcome == Fail(e) && range.Config() == old(range.Config())
    {
      if unit.None? {
        return Fail(NullPointer);
      }
      var end := Plus(LocalDate, calendar, range.from, n as int, unit.value);
      if end.Err? {
        return Fail(end.error);
      }
      range.SetUntil(Some(end.value));
      outcome := Pass;
    }

    /** every(amount, unit): a null unit throws and changes nothing. Otherwise
        the step becomes Math.abs(amount) units (so Integer.MIN_VALUE stays
        negative), and only then does the fail-fast probe `today.plus(0, unit)`
        throw for a unit LocalDate does not support, leaving the new step in
        place. */
    method Every(n: int32, unit: Option<ChronoUnit>, today: int) returns (outcome: Outcome)
      modifies this
      ensures unit.None? ==> outcome == Fail(NullPointer) && amount == old(amount) && this.unit == old(this.unit)
      ensures unit.Some? ==>
        && amount == JavaAbs(n) as int && this.unit == unit.value
        && (outcome == Pass <==> IsSupported(LocalDate, unit.value))
        && (outcome != Pass ==> outcome == Fail(UnsupportedTemporalType))
    {
      if unit.None? {
        return Fail(NullPointer);
      }
      amount := JavaAbs(n) as int;
      this.unit := unit.value;
      var probe := Plus(LocalDate, calendar, today, 0, this.unit);
      outcome := if probe.Ok? then Pass else Fail(probe.error);
    }

    /** every(Period): a null period throws and changes nothing; otherwise
        the step becomes the period's days field, sign included, in DAYS. The
        months and years fields are not read. */
    method EveryPeriod(period: Option<Period>) returns (outcome: Outcome)
      modifies this
      ensures period.None? ==> outcome == Fail(NullPointer) && amount == old(amount) && unit == old(unit)
      ensures period.Some? ==> outcome == Pass && unit == Days && amount == period.value.days as int
    {
      if period.None? {
        return Fail(NullPointer);
      }
      unit := Days;
      amount := period.value.days as int;
      // The fail-fast probe `plus(0, DAYS)` cannot throw on a LocalDate.
      assert IsSupported(LocalDate, unit);
      outcome := Pass;
    }

    /** stream(): the dates from the start, one step apart, while canTake
        accepts them. Nothing is pulled yet. */
    method Stream() returns (s: TakeWhile<int>)
      ensures fresh(s) && fresh(s.source)
      ensures s.Valid() && s.start == 0 && !s.hasEnded && s.emitted == []
      ensures s.source.elements == Iterate(range.from, Next(LocalDate, calendar, IsForward(range.Config()), amount, unit))
      ensures s.test == Predicate(range.Config())
    {
      var r := range.Config();
      s := Materialize(r, Next(LocalDate, calendar, IsForward(r), amount, unit));
    }

    /** stream() collected to a list, for a bounded range and a positive step
        (amount at least one) of DAYS or WEEKS: the closed form. */
    method Collect() returns (dates: seq<int>, failure: Option<Error>)
      requires range.Config().to.Some? && amount >= 1 && FixedLength(LocalDate, unit).Some?
      ensures amount * FixedLength(LocalDate, unit).value >= 1
      ensures dates == Expected(range.Config(), amount * FixedLength(LocalDate, unit).value)
      ensures failure == None
    {
      var s := Stream();
      ghost var r := range.Config();
      FixedUnitStream(LocalDate, calendar, r, amount, unit);
      dates, failure := s.ForEachRemaining(Expected(r, amount * FixedLength(LocalDate, unit).value));
    }
  }

  /** until(2, DAYS) yields the start and the day after. */
  method StopsBeforeUntilDateGivenByChronoUnits(now: int, calendar: Calendar) returns (dates: seq<int>)
    ensures dates == [now, now + 1]
  {
    var built := LocalDateStream.From(Some(now), calendar);
    var b := built.value;
    var _ := b.UntilRelative(2, Some(Days));
    ghost var r := b.range.Config();
    assert Count(r, 1) == 2;
    var failure;
    dates, failure := b.Collect();
  }

  /** until(now + 2 days) yields the start and the day after. */
  method StopsBeforeUntilDateGivenByLocalDate(now: int, calendar: Calendar) returns (dates: seq<int>)
    ensures dates == [now, now + 1]
  {
    var built := LocalDateStream.From(Some(now), calendar);
    var b := built.value;
    b.Until(Some(now + 2));
    ghost var r := b.range.Config();
    assert Count(r, 1) == 2;
    var failure;
    dates, failure := b.Collect();
  }

  /** to(2, DAYS) yields three days, the end included. */
  method StopsOnToDateGivenByChronoUnits(now: int, calendar: Calendar) returns (dates: seq<int>)
    ensures dates == [now, now + 1, now + 2]
  {
    var built := LocalDateStream.From(Some(now), calendar);
    var b := built.value;
    var _ := b.ToRelative(2, Some(Days));
    ghost var r := b.range.Config();
    assert Count(r, 1) == 3;
    var failure;
    dates, failure := b.Collect();
  }

  /** to(now + 2 days) yields three days, the end included. */
  method StopsOnToDateGivenByLocalDate(now: int, calendar: Calendar) returns (dates: seq<int>)
    ensures dates == [now, now + 1, now + 2]
  {
    var built := LocalDateStream.From(Some(now), calendar);
    var b := built.value;
    b.To(Some(now + 2));
    ghost var r := b.range.Config();
    assert Count(r, 1) == 3;
    var failure;
    dates, failure := b.Collect();
  }

  /** to(3, DAYS) every 2 DAYS stops at now + 2: the overshooting now + 4 is
      rejected. */
  method StopsBeforeToWhenEveryIsAfterEndDate(now: int, calendar: Calendar, today: int) returns (dates: seq<int>)
    ensures dates == [now, now + 2]
  {
    var built := LocalDateStream.From(Some(now), calendar);
    var b := built.value;
    var _ := b.ToRelative(3, Some(Days));
    var _ := b.Every(2, Some(Days), today);
    ghost var r := b.range.Config();
    assert Count(r, 2) == 2;
    var failure;
    dates, failure := b.Collect();
  }

  /** to(now) yields the start alone; until(now) yields nothing. */
  method IdenticalFromAndToCreateOnePointStream(now: int, calendar: Calendar) returns (to: seq<int>, until: seq<int>)
    ensures to == [now]
    ensures until == []
  {
    var built := LocalDateStream.From(Some(now), calendar);
    var b := built.value;
    b.To(Some(now));
    assert Count(b.range.Config(), 1) == 1;
    var failure;
    to, failure := b.Collect();
    b.Until(Some(now));
    until, failure := b.Collect();
  }

  /** to(-2, DAYS) runs back through time. */
  method ToBeforeFromRunsBackThroughTime(now: int, calendar: Calendar) returns (dates: seq<int>)
    ensures dates == [now, now - 1, now - 2]
  {
    var built := LocalDateStream.From(Some(now), calendar);
    var b := built.value;
    var _ := b.ToRelative(-2, Some(Days));
    ghost var r := b.range.Config();
    assert Count(r, 1) == 3;
    var failure;
    dates, failure := b.Collect();
  }

  /** With no end, taking the first `iterations` elements gives consecutive
      days from the start: the last one is `iterations - 1` days later. */
  method NoToDateRunsForever(now: int, calendar: Calendar, iterations: nat) returns (dates: seq<int>)
    ensures |dates| == iterations
    ensures forall i | 0 <= i < iterations :: dates[i] == now + i
  {
    var built := LocalDateStream.From(Some(now), calendar);
    var b := built.value;
    var s := b.Stream();
    ghost var r := b.range.Config();
    dates := [];
    while |dates| < iterations
      invariant s.Valid() && s.start == 0 && !s.hasEnded && s.emitted == dates
      invariant s.source.elements == Iterate(now, Next(LocalDate, calendar, true, 1, Days)) && s.test == Predicate(r)
      invariant |dates| <= iterations
      invariant forall i | 0 <= i < |dates| :: dates[i] == now + i
      decreases iterations - |dates|
    {
      FixedUnitUnbounded(LocalDate, calendar, r, 1, Days, |dates|);
      var p := s.TryAdvance();
      dates := dates + [p.value];
    }
  }

  /** until(now.plusMonths(1)) every P15D. The number of days from `now` to
      `now.plusMonths(1)` decides the outcome: up to 30 it is the start and
      fifteen days later; a span of 31 days (now = 10 January, say) also
      yields now + 30. */
  method StopsBeforeToWhenEveryPeriodIsAfterEndDate(now: int, calendar: Calendar) returns (dates: seq<int>)
    requires 28 <= calendar(now, 1, Months) - now <= 31
    ensures calendar(now, 1, Months) - now <= 30 ==> dates == [now, now + 15]
    ensures calendar(now, 1, Months) - now == 31 ==> dates == [now, now + 15, now + 30]
  {
    var built := LocalDateStream.From(Some(now), calendar);
    var b := built.value;
    var end := Plus(LocalDate, calendar, now, 1, Months);
    b.Until(Some(end.value));
    var _ := b.EveryPeriod(Some(Period(0, 0, 15)));
    ghost var r := b.range.Config();
    assert Count(r, 15) == if end.value - now <= 30 then 2 else 3;
    var failure;
    dates, failure := b.Collect();
  }
}
