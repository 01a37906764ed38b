/** Configurations whose stream walks away from its end: what the builders
    store as written when `every` is given Integer.MIN_VALUE or a negative
    Period or Duration field, and what a zero step does. Next to them, the
    property the magnitude `every` evidently means to store restores. */
module Pitfalls {
  import opened Base
  import opened Temporal
  import opened Spliterators
  import opened ComparableStream
  import opened Steps
  import opened StreamLaws
  import opened LocalDates

  /** A negative stored amount steps away from the end in both directions:
      every element is further from the end than the one before and is
      accepted, so over unbounded integers a bounded stream whose start is
      accepted never ends. */
  lemma NegativeAmountNeverEnds(kind: Kind, calendar: Calendar, r: Range, a: int, unit: ChronoUnit)
    requires r.to.Some? && CanTake(r, r.from) && a < 0 && FixedLength(kind, unit).Some?
    ensures var d := (if IsForward(r) then a else -a) * FixedLength(kind, unit).value;
      && Sign(r) * d < 0
      && (forall i: nat :: Iterate(r.from, Next(kind, calendar, IsForward(r), a, unit))(i) == Item(r.from + i * d) && Predicate(r)(r.from + i * d))
      && (forall xs: seq<int> :: !IsTakeWhile(xs, Iterate(r.from, Next(kind, calendar, IsForward(r), a, unit)), 0, Predicate(r)))
  {
    var len := FixedLength(kind, unit).value;
    var d := (if IsForward(r) then a else -a) * len;
    NextTranslates(kind, calendar, IsForward(r), a, unit);
    assert Sign(r) * d == a * len;
    MulMono(a, -1, len);
    StepAwayNeverEnds(r, d, Next(kind, calendar, IsForward(r), a, unit));
  }

  /** every(Integer.MIN_VALUE, unit) as written: Math.abs leaves the amount
      at -2^31, so the stream walks away from its end and never yields the
      intended elements; over unbounded integers it never ends. */
  lemma AbsOfMinValueNeverEnds(kind: Kind, calendar: Calendar, r: Range, n: int32, unit: ChronoUnit)
    requires n as int == MIN_INT
    requires r.to.Some? && CanTake(r, r.from) && FixedLength(kind, unit).Some?
    ensures JavaAbs(n) as int == MIN_INT
    ensures var stored := JavaAbs(n) as int;
      forall xs: seq<int> :: !IsTakeWhile(xs, Iterate(r.from, Next(kind, calendar, IsForward(r), stored, unit)), 0, Predicate(r))
  {
    NegativeAmountNeverEnds(kind, calendar, r, MIN_INT, unit);
  }

  /** With the magnitude stored instead, every non-zero amount gives a
      bounded stream that ends, after exactly the closed-form elements;
      Integer.MIN_VALUE included. */
  lemma MagnitudeStepEnds(kind: Kind, calendar: Calendar, r: Range, n: int, unit: ChronoUnit)
    requires r.to.Some? && n != 0 && FixedLength(kind, unit).Some?
    ensures Magnitude(n) * FixedLength(kind, unit).value >= 1
    ensures IsTakeWhile(Expected(r, Magnitude(n) * FixedLength(kind, unit).value),
                        Iterate(r.from, Next(kind, calendar, IsForward(r), Magnitude(n), unit)), 0, Predicate(r))
  {
    FixedUnitStream(kind, calendar, r, Magnitude(n), unit);
  }

  /** A zero step (every(0, unit), or a Period whose read field is zero, such
      as P1M given to a LocalDate builder) repeats the start for ever when it
      is accepted, whatever the end. */
  lemma ZeroStepRepeatsStart(kind: Kind, calendar: Calendar, r: Range, unit: ChronoUnit)
    requires CanTake(r, r.from) && IsSupported(kind, unit)
    ensures forall i: nat :: Iterate(r.from, Next(kind, calendar, IsForward(r), 0, unit))(i) == Item(r.from)
    ensures forall xs: seq<int> :: !IsTakeWhile(xs, Iterate(r.from, Next(kind, calendar, IsForward(r), 0, unit)), 0, Predicate(r))
  {
    var f := Next(kind, calendar, IsForward(r), 0, unit);
    forall x ensures f(x) == Ok(x + 0) {
      assert f(x) == Plus(kind, calendar, x, 0, unit);
    }
    forall i: nat ensures Iterate(r.from, f)(i) == Item(r.from) {
      IterateTranslation(r.from, f, 0, i);
    }
  }

  /** to(2, DAYS).every(Period.ofDays(-1)) as written: the stored amount is
      -1, so the stream runs back through time, away from its end, instead
      of yielding the start and the two days after it. The first `pulls`
      elements are the start and the days before it. */
  method EveryNegativePeriodWalksBack(now: int, calendar: Calendar, pulls: nat) returns (dates: seq<int>)
    ensures |dates| == pulls
    ensures forall i | 0 <= i < pulls :: dates[i] == now - i
  {
    var built := LocalDateStream.From(Some(now), calendar);
    var b := built.value;
    var _ := b.ToRelative(2, Some(Days));
    var _ := b.EveryPeriod(Some(Period(0, 0, -1)));
    var s := b.Stream();
    ghost var r := b.range.Config();
    NegativeAmountNeverEnds(LocalDate, calendar, r, -1, Days);
    dates := [];
    while |dates| < pulls
      invariant s.Valid() && s.start == 0 && !s.hasEnded && s.emitted == dates
      invariant s.source.elements == Iterate(now, Next(LocalDate, calendar, true, -1, Days)) && s.test == Predicate(r)
      invariant |dates| <= pulls
      invariant forall i | 0 <= i < |dates| :: dates[i] == now - i
      decreases pulls - |dates|
    {
      var p := s.TryAdvance();
      dates := dates + [p.value];
    }
  }

  /** to(1, DAYS).every(Integer.MIN_VALUE, DAYS) as written: the stored
      amount is -2^31, so after the start the stream jumps 2^31 days back at
      every pull, where the magnitude would have given the start alone. Over
      unbounded integers it keeps going; in Java `plus` throws
      DateTimeException at about the 171st step, once the date passes
      LocalDate.MIN. */
  method EveryMinValueWalksAway(now: int, calendar: Calendar, today: int, pulls: nat) returns (dates: seq<int>)
    ensures |dates| == pulls
    ensures forall i | 0 <= i < pulls :: dates[i] == now + i * MIN_INT
  {
    var built := LocalDateStream.From(Some(now), calendar);
    var b := built.value;
    var _ := b.ToRelative(1, Some(Days));
    var _ := b.Every(-0x8000_0000, Some(Days), today);
    var s := b.Stream();
    ghost var r := b.range.Config();
    NegativeAmountNeverEnds(LocalDate, calendar, r, MIN_INT, Days);
    dates := [];
    while |dates| < pulls
      invariant s.Valid() && s.start == 0 && !s.hasEnded && s.emitted == dates
      invariant s.source.elements == Iterate(now, Next(LocalDate, calendar, true, MIN_INT, Days)) && s.test == Predicate(r)
      invariant |dates| <= pulls
      invariant forall i | 0 <= i < |dates| :: dates[i] == now + i * MIN_INT
      decreases pulls - |dates|
    {
      var p := s.TryAdvance();
      dates := dates + [p.value];
    }
  }
}
