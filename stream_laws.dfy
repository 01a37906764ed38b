/** What a stream built by `stream()` yields, for a step that is a fixed
    translation (every unit except the calendar-dependent ones): a closed
    form for the elements of a bounded range, the facts the tests check about
    it, and the configurations under which the stream never ends. */
module StreamLaws {
  import opened Base
  import opened Spliterators
  import opened ComparableStream
  import opened Temporal
  import opened Steps

  /** The signed distance between consecutive elements for a step of `s`
      base units: towards the end when there is one. */
  function Delta(r: Range, s: nat): (d: int) {
    Sign(r) * s
  }

  /** The distance from the start to the end, measured in the direction of travel. */
  function Span(r: Range): (n: nat)
    requires r.to.Some?
  {
    if IsForward(r) then r.to.value - r.from else r.from - r.to.value
  }

  /** How many elements a bounded range yields for a step of `s`: one per
      multiple of `s` that stays short of the span, plus one more when a
      multiple lands on an included end. */
  function Count(r: Range, s: nat): (n: nat)
    requires r.to.Some? && s >= 1
  {
    if !r.closedRange then Span(r) / s + 1
    else if Span(r) == 0 then 0
    else (Span(r) - 1) / s + 1
  }

  /** The elements a bounded range yields, in order: the start, then one step further each time. */
  function Expected(r: Range, s: nat): (xs: seq<int>)
    requires r.to.Some? && s >= 1
  {
    seq(Count(r, s), i => r.from + i * Delta(r, s))
  }

  lemma MulMono(a: int, b: int, s: nat)
    requires a <= b
    ensures a * s <= b * s
  {
  }

  /** Floor division by a positive step, stated by what it bounds. */
  lemma FloorDivBound(i: nat, n: nat, s: nat)
    requires s >= 1
    ensures i <= n / s <==> i * s <= n
  {
    var q := n / s;
    assert n == q * s + n % s;
    if i <= q {
      MulMono(i, q, s);
    } else {
      MulMono(q + 1, i, s);
      assert (q + 1) * s == q * s + s;
    }
  }

  /** Iterating a translation by `d` lands `i * d` away from the seed. */
  lemma {:induction false} IterateTranslation(seed: int, f: int -> Result<int>, d: int, i: nat)
    requires forall x :: f(x) == Ok(x + d)
    ensures IterateAt(seed, f, i) == Item(seed + i * d)
  {
    if i > 0 {
      IterateTranslation(seed, f, d, i - 1);
      assert f(seed + (i - 1) * d) == Ok(seed + (i - 1) * d + d);
      assert (i - 1) * d + d == i * d;
    }
  }

  /** Iterating a step that never throws yields an element at every position. */
  lemma {:induction false} IterateNeverThrows(seed: int, f: int -> Result<int>, i: nat)
    requires forall x :: f(x).Ok?
    ensures IterateAt(seed, f, i).Item?
  {
    if i > 0 {
      IterateNeverThrows(seed, f, i - 1);
    }
  }

  /** canTake accepts the element `i` steps from the start exactly when `i`
      is below the count. */
  lemma AcceptsIffBeforeCount(r: Range, s: nat, i: nat)
    requires r.to.Some? && s >= 1
    ensures CanTake(r, r.from + i * Delta(r, s)) <==> i < Count(r, s)
  {
    var x := r.from + i * Delta(r, s);
    var to := r.to.value;
    if IsForward(r) {
      assert Sign(r) * (to - x) == Span(r) - i * s;
      assert x - to == i * s - Span(r);
    } else {
      assert i * Delta(r, s) == -(i * s);
      assert Sign(r) * (to - x) == Span(r) - i * s;
      assert x - to == Span(r) - i * s;
    }
    assert CanTake(r, x) <==> i * s < Span(r) || (i * s == Span(r) && !r.closedRange);
    if !r.closedRange {
      FloorDivBound(i, Span(r), s);
    } else if Span(r) > 0 {
      FloorDivBound(i, Span(r) - 1, s);
    }
  }

  /** stream() over a bounded range with a positive fixed step yields exactly
      `Expected(r, s)`: it is the longest prefix of the iteration that canTake
      accepts, and the element after it is rejected. */
  lemma BoundedTakeWhile(r: Range, s: nat, f: int -> Result<int>)
    requires r.to.Some? && s >= 1
    requires forall x :: f(x) == Ok(x + Delta(r, s))
    ensures IsTakeWhile(Expected(r, s), Iterate(r.from, f), 0, Predicate(r))
    ensures Iterate(r.from, f)(|Expected(r, s)|).Item?
  {
    var xs := Expected(r, s);
    forall i | 0 <= i < |xs|
      ensures Iterate(r.from, f)(0 + i) == Item(xs[i]) && Predicate(r)(xs[i])
    {
      IterateTranslation(r.from, f, Delta(r, s), i);
      AcceptsIffBeforeCount(r, s, i);
    }
    IterateTranslation(r.from, f, Delta(r, s), |xs|);
    AcceptsIffBeforeCount(r, s, |xs|);
  }

  /** Every element lies between the start and the end, and never on an end
      that was set by `until`. */
  lemma ExpectedBetweenEnds(r: Range, s: nat)
    requires r.to.Some? && s >= 1
    ensures var xs := Expected(r, s);
      forall i | 0 <= i < |xs| ::
        && (IsForward(r) ==> r.from <= xs[i] <= r.to.value)
        && (!IsForward(r) ==> r.to.value <= xs[i] <= r.from)
        && (r.closedRange ==> xs[i] != r.to.value)
  {
    var xs := Expected(r, s);
    forall i | 0 <= i < |xs|
      ensures IsForward(r) ==> r.from <= xs[i] <= r.to.value
      ensures !IsForward(r) ==> r.to.value <= xs[i] <= r.from
      ensures r.closedRange ==> xs[i] != r.to.value
    {
      AcceptsIffBeforeCount(r, s, i);
      MulMono(0, i, s);
      assert xs[i] == r.from + i * Delta(r, s);
      assert CanTake(r, xs[i]);
    }
  }

  /** The elements strictly increase when travelling forward and strictly
      decrease when travelling backward. */
  lemma ExpectedMonotone(r: Range, s: nat)
    requires r.to.Some? && s >= 1
    ensures var xs := Expected(r, s);
      forall i, j | 0 <= i < j < |xs| :: if IsForward(r) then xs[i] < xs[j] else xs[i] > xs[j]
  {
    var xs := Expected(r, s);
    forall i, j | 0 <= i < j < |xs|
      ensures if IsForward(r) then xs[i] < xs[j] else xs[i] > xs[j]
    {
      MulMono(1, j - i, s);
      assert xs[j] - xs[i] == (j - i) * Delta(r, s);
      assert (j - i) * Delta(r, s) == Sign(r) * ((j - i) * s);
    }
  }

  /** The stream is empty only for `until` its own start; otherwise it begins
      at the start, and one more step after its last element would have been
      rejected. */
  lemma ExpectedEnds(r: Range, s: nat)
    requires r.to.Some? && s >= 1
    ensures var xs := Expected(r, s);
      && (|xs| == 0 <==> r.to.value == r.from && r.closedRange)
      && (|xs| > 0 ==> xs[0] == r.from && !CanTake(r, xs[|xs| - 1] + Delta(r, s)))
  {
  }

  /** When the end is included and the step divides the span, the stream
      finishes exactly on the end. */
  lemma ExpectedReachesEnd(r: Range, s: nat)
    requires r.to.Some? && s >= 1 && !r.closedRange && Span(r) % s == 0
    ensures var xs := Expected(r, s); |xs| > 0 && xs[|xs| - 1] == r.to.value
  {
  }

  /** With no end, a step that never throws gives an endless stream: every
      element of the iteration is accepted, so no drain ever completes. */
  lemma UnboundedNeverEnds(r: Range, f: int -> Result<int>)
    requires r.to.None?
    requires forall x :: f(x).Ok?
    ensures forall i: nat :: Iterate(r.from, f)(i).Item? && Predicate(r)(Iterate(r.from, f)(i).value)
    ensures forall xs: seq<int> :: !IsTakeWhile(xs, Iterate(r.from, f), 0, Predicate(r))
  {
    forall i: nat ensures Iterate(r.from, f)(i).Item? {
      IterateNeverThrows(r.from, f, i);
    }
    forall xs: seq<int> ensures !IsTakeWhile(xs, Iterate(r.from, f), 0, Predicate(r)) {
      IterateNeverThrows(r.from, f, |xs|);
    }
  }

  /** A step that does not move towards the end (a zero step, or a negative
      one stored where a magnitude was meant) never ends a bounded stream
      whose start is accepted: every element is accepted. */
  lemma StepAwayNeverEnds(r: Range, d: int, f: int -> Result<int>)
    requires r.to.Some? && Sign(r) * d <= 0 && CanTake(r, r.from)
    requires forall x :: f(x) == Ok(x + d)
    ensures forall i: nat :: Iterate(r.from, f)(i) == Item(r.from + i * d) && Predicate(r)(r.from + i * d)
    ensures forall xs: seq<int> :: !IsTakeWhile(xs, Iterate(r.from, f), 0, Predicate(r))
  {
    forall i: nat ensures Iterate(r.from, f)(i) == Item(r.from + i * d) && Predicate(r)(r.from + i * d) {
      IterateTranslation(r.from, f, d, i);
      var x := r.from + i * d;
      MulMono(0, i, if Sign(r) * d < 0 then -Sign(r) * d else 0);
      assert Sign(r) * (r.to.value - x) == Sign(r) * (r.to.value - r.from) - i * (Sign(r) * d);
    }
    forall xs: seq<int> ensures !IsTakeWhile(xs, Iterate(r.from, f), 0, Predicate(r)) {
      IterateTranslation(r.from, f, d, |xs|);
    }
  }

  /** The builders' stream for a fixed-length unit and an amount of at least
      one: exactly `Expected` with a step of `amount` units, in the direction
      isForward gives. */
  lemma FixedUnitStream(kind: Kind, calendar: Calendar, r: Range, amount: nat, unit: ChronoUnit)
    requires r.to.Some? && amount >= 1 && FixedLength(kind, unit).Some?
    ensures amount * FixedLength(kind, unit).value >= 1
    ensures IsTakeWhile(Expected(r, amount * FixedLength(kind, unit).value),
                        Iterate(r.from, Next(kind, calendar, IsForward(r), amount, unit)), 0, Predicate(r))
    ensures Iterate(r.from, Next(kind, calendar, IsForward(r), amount, unit))(|Expected(r, amount * FixedLength(kind, unit).value)|).Item?
  {
    var len := FixedLength(kind, unit).value;
    MulMono(1, amount, len);
    NextTranslates(kind, calendar, IsForward(r), amount, unit);
    BoundedTakeWhile(r, amount * len, Next(kind, calendar, IsForward(r), amount, unit));
  }

  /** Without an end, the builders' stream for a fixed-length unit yields the
      start advanced by `i` steps at every position `i`, all accepted. */
  lemma FixedUnitUnbounded(kind: Kind, calendar: Calendar, r: Range, amount: nat, unit: ChronoUnit, i: nat)
    requires r.to.None? && FixedLength(kind, unit).Some?
    ensures var x := r.from + i * (amount * FixedLength(kind, unit).value);
      Iterate(r.from, Next(kind, calendar, IsForward(r), amount, unit))(i) == Item(x) && Predicate(r)(x)
  {
    NextTranslates(kind, calendar, IsForward(r), amount, unit);
    IterateTranslation(r.from, Next(kind, calendar, IsForward(r), amount, unit), amount * FixedLength(kind, unit).value, i);
  }
}
