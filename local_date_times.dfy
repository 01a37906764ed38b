/** The LocalDateTime builder. Date-times are nanoseconds on the local
    time-line; the step defaults to one second. */
module LocalDateTimes {
  import opened Base
  import opened Temporal
  import opened Spliterators
  import opened ComparableStream
  import opened Steps
  import opened StreamLaws

  class LocalDateTimeStream {
    /** The range fields inherited from the abstract base class. */
    const range: ComparableRange
    /** Month, year and longer arithmetic, which java.time provides. */
    const calendar: Calendar
    /** The step in units, as stored: `every` may leave it negative. */
    var amount: int
    var unit: ChronoUnit

    constructor (from: int, calendar: Calendar)
      ensures fresh(range) && range.Config() == Range(from, None, false)
      ensures this.calendar == calendar && amount == 1 && unit == Seconds
    {
      range := new ComparableRange(from);
      this.calendar := calendar;
      amount := 1;
      unit := Seconds;
    }

    /** from(LocalDateTime): a null start is rejected and nothing is built;
        otherwise an unbounded range stepping one second at a time. */
    static method From(from: Option<int>, calendar: Calendar) returns (r: Result<LocalDateTimeStream>)
      ensures from.None? ==> r == Err(NullPointer)
      ensures from.Some? ==>
        && r.Ok? && fresh(r.value) && fresh(r.value.range)
        && r.value.range.Config() == Range(from.value, None, false)
        && r.value.calendar == calendar && r.value.amount == 1 && r.value.unit == Seconds
    {
      if from.None? {
        return Err(NullPointer);
      }
      var s := new LocalDateTimeStream(from.value, calendar);
      return Ok(s);
    }

    /** to(LocalDateTime): an inclusive end; null removes the end. */
    method To(to: Option<int>)
      modifies range
      ensures range.Config() == Range(range.from, to, false)
    {
      range.SetTo(to);
    }

    /** until(LocalDateTime): an exclusive end; null removes the end. */
    method Until(until: Option<int>)
      modifies range
      ensures range.Config() == Range(range.from, until, true)
    {
      range.SetUntil(until);
    }

    /** to(amount, unit): an inclusive end `amount` units after the start
        (before it when negative). A null unit, or one LocalDateTime does not
        support, throws before the range changes. */
    method ToRelative(n: int32, unit: Option<ChronoUnit>) returns (outcome: Outcome)
      modifies range
      ensures unit.None? ==> outcome == Fail(NullPointer) && range.Config() == old(range.Config())
      ensures unit.Some? ==>
        match Plus(LocalDateTime, calendar, range.from, n as int, unit.value)
        case Ok(end) => outcome == Pass && range.Config() == Range(range.from, Some(end), false)
        case Err(e) => outcome == Fail(e) && range.Config() == old(range.Config())
    {
      if unit.None? {
        return Fail(NullPointer);
      }
      var end := Plus(LocalDateTime, calendar, range.from, n as int, unit.value);
      if end.Err? {
        return Fail(end.error);
      }
      range.SetTo(Some(end.value));
      outcome := Pass;
    }

    /** until(amount, unit): as ToRelative, but the end is exclusive. */
    method UntilRelative(n: int32, unit: Option<ChronoUnit>) returns (outcome: Outcome)
      modifies range
      ensures unit.None? ==> outcome == Fail(NullPointer) && range.Config() == old(range.Config())
      ensures unit.Some? ==>
        match Plus(LocalDateTime, calendar, range.from, n as int, unit.value)
        case Ok(end) => outcome == Pass && range.Config() == Range(range.from, Some(end), true)
        case Err(e) => outcome == Fail(e) && range.Config() == old(range.Config())
    {
      if unit.None? {
        return Fail(NullPointer);
      }
      var end := Plus(LocalDateTime, calendar, range.from, n as int, unit.value);
      if end.Err? {
        return Fail(end.error);
      }
      range.SetUntil(Some(end.value));
      outcome := Pass;
    }

    /** every(amount, unit): a null unit throws and changes nothing;
        otherwise the step becomes Math.abs(amount) units (so
        Integer.MIN_VALUE stays negative). There is no fail-fast
        probe: an unsupported unit is accepted here and only throws when the
        stream computes its second element. */
    method Every(n: int32, unit: Option<ChronoUnit>) returns (outcome: Outcome)
      modifies this
      ensures unit.None? ==> outcome == Fail(NullPointer) && amount == old(amount) && this.unit == old(this.unit)
      ensures unit.Some? ==> outcome == Pass && amount == JavaAbs(n) as int && this.unit == unit.value
    {
      if unit.None? {
        return Fail(NullPointer);
      }
      amount := JavaAbs(n) as int;
      this.unit := unit.value;
      outcome := Pass;
    }

    /** every(Duration): the null check tests the unit field, which is never
        null, so it always passes; the unit becomes SECONDS, and only then does
        a null duration throw, leaving the amount as it was. Otherwise the
        step becomes the duration's seconds field, sign included; its
        nanosecond part is not read. */
    method EveryDuration(duration: Option<Duration>) returns (outcome: Outcome)
      modifies this
      ensures unit == Seconds
      ensures duration.None? ==> outcome == Fail(NullPointer) && amount == old(amount)
      ensures duration.Some? ==> outcome == Pass && amount == duration.value.seconds
    {
      unit := Seconds;
      if duration.None? {
        return Fail(NullPointer);
      }
      amount := duration.value.seconds;
      outcome := Pass;
    }

    /** stream(): the date-times from the start, one step apart, while canTake
        accepts them. Nothing is pulled yet. */
    method Stream() returns (s: TakeWhile<int>)
      ensures fresh(s) && fresh(s.source)
      ensures s.Valid() && s.start == 0 && !s.hasEnded && s.emitted == []
      ensures s.source.elements == Iterate(range.from, Next(LocalDateTime, calendar, IsForward(range.Config()), amount, unit))
      ensures s.test == Predicate(range.Config())
    {
      var r := range.Config();
      s := Materialize(r, Next(LocalDateTime, calendar, IsForward(r), amount, unit));
    }

    /** stream() collected to a list, for a bounded range and a positive step
        (amount at least one) of a fixed-length unit (NANOS to WEEKS): the
        closed form. */
    method Collect() returns (times: seq<int>, failure: Option<Error>)
      requires range.Config().to.Some? && amount >= 1 && FixedLength(LocalDateTime, unit).Some?
      ensures amount * FixedLength(LocalDateTime, unit).value >= 1
      ensures times == Expected(range.Config(), amount * FixedLength(LocalDateTime, unit).value)
      ensures failure == None
    {
      var s := Stream();
      ghost var r := range.Config();
      FixedUnitStream(LocalDateTime, calendar, r, amount, unit);
      times, failure := s.ForEachRemaining(Expected(r, amount * FixedLength(LocalDateTime, unit).value));
    }
  }

  /** One second on the nanosecond time-line. */
  const SECOND: int := 1_000_000_000

  /** until(2, SECONDS) yields the start and one second later. */
  method StopsBeforeUntilGivenByChronoUnits(now: int, calendar: Calendar) returns (times: seq<int>)
    ensures times == [now, now + SECOND]
  {
    var built := LocalDateTimeStream.From(Some(now), calendar);
    var b := built.value;
    var _ := b.UntilRelative(2, Some(Seconds));
    assert Count(b.range.Config(), SECOND) == 2;
    var failure;
    times, failure := b.Collect();
  }

  /** to(2, SECONDS) yields three instants, the end included. */
  method StopsOnToGivenByChronoUnits(now: int, calendar: Calendar) returns (times: seq<int>)
    ensures times == [now, now + SECOND, now + 2 * SECOND]
  {
    var built := LocalDateTimeStream.From(Some(now), calendar);
    var b := built.value;
    var _ := b.ToRelative(2, Some(Seconds));
    assert Count(b.range.Config(), SECOND) == 3;
    var failure;
    times, failure := b.Collect();
  }

  /** to(-2, SECONDS) runs back through time. */
  method ToBeforeFromRunsBackThroughTime(now: int, calendar: Calendar) returns (times: seq<int>)
    ensures times == [now, now - SECOND, now - 2 * SECOND]
  {
    var built := LocalDateTimeStream.From(Some(now), calendar);
    var b := built.value;
    var _ := b.ToRelative(-2, Some(Seconds));
    assert Count(b.range.Config(), SECOND) == 3;
    var failure;
    times, failure := b.Collect();
  }

  /** to(3, SECONDS) every PT2S stops at two seconds. */
  method StopsBeforeToWhenEveryDurationIsAfterEnd(now: int, calendar: Calendar) returns (times: seq<int>)
    ensures times == [now, now + 2 * SECOND]
  {
    var built := LocalDateTimeStream.From(Some(now), calendar);
    var b := built.value;
    var _ := b.ToRelative(3, Some(Seconds));
    var _ := b.EveryDuration(Some(Duration(2, 0)));
    assert Count(b.range.Config(), 2 * SECOND) == 2;
    var failure;
    times, failure := b.Collect();
  }

  /** every(1, FOREVER) is accepted; the stream hands out its start and then
      throws when it computes the next element. */
  method EveryForeverFailsLate(now: int, calendar: Calendar) returns (outcome: Outcome, first: Pull<int>, second: Pull<int>)
    ensures outcome == Pass
    ensures first == Item(now) && second == Thrown(UnsupportedTemporalType)
  {
    var built := LocalDateTimeStream.From(Some(now), calendar);
    var b := built.value;
    outcome := b.Every(1, Some(Forever));
    var s := b.Stream();
    NextTranslates(LocalDateTime, calendar, true, 1, Forever);
    first := s.TryAdvance();
    second := s.TryAdvance();
  }
}
