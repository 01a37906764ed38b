/** The YearMonth builder. Year-months are month indexes (12 * year +
    month - 1); the step defaults to one month. */
module YearMonths {
  import opened Base
  import opened Temporal
  import opened Spliterators
  import opened ComparableStream
  import opened Steps
  import opened StreamLaws

  class YearMonthStream {
    /** The range fields inherited from the abstract base class. */
    const range: ComparableRange
    /** Era arithmetic, which java.time provides; every other supported unit
        is a whole number of months. */
    const calendar: Calendar
    /** The step in units, as stored: `every` may leave it negative. */
    var amount: int
    var unit: ChronoUnit

    constructor (from: int, calendar: Calendar)
      ensures fresh(range) && range.Config() == Range(from, None, false)
      ensures this.calendar == calendar && amount == 1 && unit == Months
    {
      range := new ComparableRange(from);
      this.calendar := calendar;
      amount := 1;
      unit := Months;
    }

    /** from(YearMonth): a null start is rejected and nothing is built;
        otherwise an unbounded range stepping one month at a time. */
    static method From(from: Option<int>, calendar: Calendar) returns (r: Result<YearMonthStream>)
      ensures from.None? ==> r == Err(NullPointer)
      ensures from.Some? ==>
        && r.Ok? && fresh(r.value) && fresh(r.value.range)
        && r.value.range.Config() == Range(from.value, None, false)
        && r.value.calendar == calendar && r.value.amount == 1 && r.value.unit == Months
    {
      if from.None? {
        return Err(NullPointer);
      }
      var s := new YearMonthStream(from.value, calendar);
      return Ok(s);
    }

    /** to(YearMonth): an inclusive end; null removes the end. */
    method To(to: Option<int>)
      modifies range
      ensures range.Config() == Range(range.from, to, false)
    {
      range.SetTo(to);
    }

    /** until(YearMonth): an exclusive end; null removes the end. */
    method Until(until: Option<int>)
      modifies range
      ensures range.Config() == Range(range.from, until, true)
    {
      range.SetUntil(until);
    }

    /** to(amount, unit): an inclusive end `amount` units after the start
        (before it when negative). A null unit, or one YearMonth does not
        support, throws before the range changes. */
    method ToRelative(n: int32, unit: Option<ChronoUnit>) returns (outcome: Outcome)
      modifies range
      ensures unit.None? ==> outcome == Fail(NullPointer) && range.Config() == old(range.Config())
      ensures unit.Some? ==>
        match Plus(YearMonth, calendar, range.from, n as int, unit.value)
        case Ok(end) => outcome == Pass && range.Config() == Range(range.from, Some(end), false)
        case Err(e) => outcome == Fail(e) && range.Config() == old(range.Config())
    {
      if unit.None? {
        return Fail(NullPointer);
      }
      var end := Plus(YearMonth, calendar, range.from, n as int, unit.value);
      if end.Err? {
        return Fail(end.error);
      }
      range.SetTo(Some(end.value));
      outcome := Pass;
    }

    /** until(amount, unit): as ToRelative, but the end is exclusive. */
    method UntilRelative(n: int32, unit: Option<ChronoUnit>) returns (outcome: Outcome)
      modifies range
      ensures unit.None? ==> outcome == Fail(NullPointer) && range.Config() == old(range.Config())
      ensures unit.Some? ==>
        match Plus(YearMonth, calendar, range.from, n as int, unit.value)
        case Ok(end) => outcome == Pass && range.Config() == Range(range.from, Some(end), true)
        case Err(e) => outcome == Fail(e) && range.Config() == old(range.Config())
    {
      if unit.None? {
        return Fail(NullPointer);
      }
      var end := Plus(YearMonth, calendar, range.from, n as int, unit.value);
      if end.Err? {
        return Fail(end.error);
      }
      range.SetUntil(Some(end.value));
      outcome := Pass;
    }

    /** every(amount, unit): a null unit throws and changes nothing. Otherwise
        the step becomes Math.abs(amount) units (so Integer.MIN_VALUE stays
        negative), and only then does the fail-fast probe `thisMonth.plus(0, unit)`
        throw for a unit YearMonth does not support, leaving the new step in
        place. */
    method Every(n: int32, unit: Option<ChronoUnit>, thisMonth: int) returns (outcome: Outcome)
      modifies this
      ensures unit.None? ==> outcome == Fail(NullPointer) && amount == old(amount) && this.unit == old(this.unit)
      ensures unit.Some? ==>
        && amount == JavaAbs(n) as int && this.unit == unit.value
        && (outcome == Pass <==> IsSupported(YearMonth, unit.value))
        && (outcome != Pass ==> outcome == Fail(UnsupportedTemporalType))
    {
      if unit.None? {
        return Fail(NullPointer);
      }
      amount := JavaAbs(n) as int;
      this.unit := unit.value;
      var probe := Plus(YearMonth, calendar, thisMonth, 0, this.unit);
      outcome := if probe.Ok? then Pass else Fail(probe.error);
    }

    /** every(Period): the null check tests the unit field, which is never
        null, so it always passes; the unit becomes MONTHS, and only then does
        a null period throw, leaving the amount as it was. Otherwise the step
        becomes the period's months field, sign included. The years and days
        fields are not read. */
    method EveryPeriod(period: Option<Period>) returns (outcome: Outcome)
      modifies this
      ensures unit == Months
      ensures period.None? ==> outcome == Fail(NullPointer) && amount == old(amount)
      ensures period.Some? ==> outcome == Pass && amount == period.value.months as int
    {
      unit := Months;
      if period.None? {
        return Fail(NullPointer);
      }
      amount := period.value.months as int;
      // The fail-fast probe `plus(0, MONTHS)` cannot throw on a YearMonth.
      assert IsSupported(YearMonth, unit);
      outcome := Pass;
    }

    /** stream(): the months from the start, one step apart, while canTake
        accepts them. Nothing is pulled yet. */
    method Stream() returns (s: TakeWhile<int>)
      ensures fresh(s) && fresh(s.source)
      ensures s.Valid() && s.start == 0 && !s.hasEnded && s.emitted == []
      ensures s.source.elements == Iterate(range.from, Next(YearMonth, calendar, IsForward(range.Config()), amount, unit))
      ensures s.test == Predicate(range.Config())
    {
      var r := range.Config();
      s := Materialize(r, Next(YearMonth, calendar, IsForward(r), amount, unit));
    }

    /** stream() collected to a list, for a bounded range and a positive step
        (amount at least one) of a whole number of months (MONTHS to
        MILLENNIA): the closed form. */
    method Collect() returns (months: seq<int>, failure: Option<Error>)
      requires range.Config().to.Some? && amount >= 1 && FixedLength(YearMonth, unit).Some?
      ensures amount * FixedLength(YearMonth, unit).value >= 1
      ensures months == Expected(range.Config(), amount * FixedLength(YearMonth, unit).value)
      ensures failure == None
    {
      var s := Stream();
      ghost var r := range.Config();
      FixedUnitStream(YearMonth, calendar, r, amount, unit);
      months, failure := s.ForEachRemaining(Expected(r, amount * FixedLength(YearMonth, unit).value));
    }
  }

  /** until(2, MONTHS) yields the start and the month after. */
  method StopsBeforeUntilDateGivenByChronoUnits(now: int, calendar: Calendar) returns (months: seq<int>)
    ensures months == [now, now + 1]
  {
    var built := YearMonthStream.From(Some(now), calendar);
    var b := built.value;
    var _ := b.UntilRelative(2, Some(Months));
    assert Count(b.range.Config(), 1) == 2;
    var failure;
    months, failure := b.Collect();
  }

  /** until(now + 2 months) yields the start and the month after. */
  method StopsBeforeUntilDateGivenByYearMonth(now: int, calendar: Calendar) returns (months: seq<int>)
    ensures months == [now, now + 1]
  {
    var built := YearMonthStream.From(Some(now), calendar);
    var b := built.value;
    b.Until(Some(now + 2));
    assert Count(b.range.Config(), 1) == 2;
    var failure;
    months, failure := b.Collect();
  }

  /** to(2, MONTHS) yields three months, the end included. */
  method StopsOnToDateGivenByChronoUnits(now: int, calendar: Calendar) returns (months: seq<int>)
    ensures months == [now, now + 1, now + 2]
  {
    var built := YearMonthStream.From(Some(now), calendar);
    var b := built.value;
    var _ := b.ToRelative(2, Some(Months));
    assert Count(b.range.Config(), 1) == 3;
    var failure;
    months, failure := b.Collect();
  }

  /** to(now + 2 months) yields three months, the end included. */
  method StopsOnToDateGivenByYearMonth(now: int, calendar: Calendar) returns (months: seq<int>)
    ensures months == [now, now + 1, now + 2]
  {
    var built := YearMonthStream.From(Some(now), calendar);
    var b := built.value;
    b.To(Some(now + 2));
    assert Count(b.range.Config(), 1) == 3;
    var failure;
    months, failure := b.Collect();
  }

  /** to(3, MONTHS) every 2 MONTHS stops at now + 2. */
  method StopsBeforeToWhenEveryIsAfterEndDate(now: int, calendar: Calendar, thisMonth: int) returns (months: seq<int>)
    ensures months == [now, now + 2]
  {
    var built := YearMonthStream.From(Some(now), calendar);
    var b := built.value;
    var _ := b.ToRelative(3, Some(Months));
    var _ := b.Every(2, Some(Months), thisMonth);
    assert Count(b.range.Config(), 2) == 2;
    var failure;
    months, failure := b.Collect();
  }

  /** to(now) yields the start alone. */
  method IdenticalFromAndToCreateOnePointStream(now: int, calendar: Calendar) returns (months: seq<int>)
    ensures months == [now]
  {
    var built := YearMonthStream.From(Some(now), calendar);
    var b := built.value;
    b.To(Some(now));
    assert Count(b.range.Config(), 1) == 1;
    var failure;
    months, failure := b.Collect();
  }

  /** to(-2, MONTHS) runs back through time. */
  method ToBeforeFromRunsBackThroughTime(now: int, calendar: Calendar) returns (months: seq<int>)
    ensures months == [now, now - 1, now - 2]
  {
    var built := YearMonthStream.From(Some(now), calendar);
    var b := built.value;
    var _ := b.ToRelative(-2, Some(Months));
    assert Count(b.range.Config(), 1) == 3;
    var failure;
    months, failure := b.Collect();
  }

  /** to(3, MONTHS) every P2M stops at now + 2. */
  method StopsBeforeToWhenEveryDurationIsAfterEndDate(now: int, calendar: Calendar) returns (months: seq<int>)
    ensures months == [now, now + 2]
  {
    var built := YearMonthStream.From(Some(now), calendar);
    var b := built.value;
    var _ := b.ToRelative(3, Some(Months));
    var _ := b.EveryPeriod(Some(Period(0, 2, 0)));
    assert Count(b.range.Config(), 2) == 2;
    var failure;
    months, failure := b.Collect();
  }

  /** With no end, taking the first `iterations` elements gives consecutive
      months from the start: the last one is `iterations - 1` months later. */
  method NoToDateRunsForever(now: int, calendar: Calendar, iterations: nat) returns (months: seq<int>)
    ensures |months| == iterations
    ensures forall i | 0 <= i < iterations :: months[i] == now + i
  {
    var built := YearMonthStream.From(Some(now), calendar);
    var b := built.value;
    var s := b.Stream();
    ghost var r := b.range.Config();
    months := [];
    while |months| < iterations
      invariant s.Valid() && s.start == 0 && !s.hasEnded && s.emitted == months
      invariant s.source.elements == Iterate(now, Next(YearMonth, calendar, true, 1, Months)) && s.test == Predicate(r)
      invariant |months| <= iterations
      invariant forall i | 0 <= i < |months| :: months[i] == now + i
      decreases iterations - |months|
    {
      FixedUnitUnbounded(YearMonth, calendar, r, 1, Months, |months|);
      var p := s.TryAdvance();
      months := months + [p.value];
    }
  }
}
