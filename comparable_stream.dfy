/** The range state every builder shares: a start, an optional end and the
    flag saying whether the end is excluded; the direction and the stopping
    test derived from them; and the composition of an unbounded iteration
    with that test into a stream. */
module ComparableStream {
  import opened Base
  import opened Spliterators

  /** A snapshot of the range fields. `closedRange` is true when the end was
      set by `until`, i.e. when the end itself is NOT emitted. */
  datatype Range = Range(from: int, to: Option<int>, closedRange: bool)

  /** isForward: travel is forward unless there is an end lying before the
      start; a zero-width range counts as forward. */
  function IsForward(r: Range): (forward: bool)
    ensures r.to == Some(r.from) ==> forward
    ensures !forward <==> r.to.Some? && r.to.value < r.from
  {
    r.to == None || r.from <= r.to.value
  }

  /** +1 when travelling forward, -1 when travelling backward. */
  function Sign(r: Range): (s: int) {
    if IsForward(r) then 1 else -1
  }

  /** The predicate canTake builds: may `x` be emitted? With no end, always.
      Otherwise exactly when `x` has not yet reached the end in the direction
      of travel, or sits on an end that is included. */
  function CanTake(r: Range, x: int): (ok: bool)
    ensures r.to.None? ==> ok
    ensures r.to.Some? ==> (ok <==> Sign(r) * (r.to.value - x) > 0 || (x == r.to.value && !r.closedRange))
  {
    if r.to.None? then true
    else if x < r.to.value then IsForward(r)
    else if x > r.to.value then !IsForward(r)
    else !r.closedRange
  }

  /** canTake() as a function value, the way stream() hands it to TakeWhile. */
  function Predicate(r: Range): (test: int -> bool) {
    x => CanTake(r, x)
  }

  /** The range fields of the abstract base class. */
  class ComparableRange {
    const from: int
    var to: Option<int>
    var closedRange: bool

    function Config(): (r: Range)
      reads this
    {
      Range(from, to, closedRange)
    }

    /** The base constructor; a null start is rejected by the builders' `From`
        before this is reached. */
    constructor (from: int)
      ensures Config() == Range(from, None, false)
    {
      this.from := from;
      to := None;
      closedRange := false;
    }

    /** setTo: the end becomes `to`, and it is included. */
    method SetTo(to: Option<int>)
      modifies this
      ensures Config() == Range(from, to, false)
    {
      this.to := to;
      closedRange := false;
    }

    /** setUntil: the end becomes `until`, and it is excluded. */
    method SetUntil(until: Option<int>)
      modifies this
      ensures Config() == Range(from, until, true)
    {
      to := until;
      closedRange := true;
    }
  }

  /** stream(): `Stream.iterate(from, next)` wrapped in a TakeWhile that tests
      each element with canTake. Nothing is pulled yet. */
  method Materialize(r: Range, next: int -> Result<int>) returns (s: TakeWhile<int>)
    ensures fresh(s) && fresh(s.source)
    ensures s.Valid() && s.start == 0 && !s.hasEnded && s.emitted == []
    ensures s.source.elements == Iterate(r.from, next) && s.test == Predicate(r)
  {
    var source := new Spliterator(Iterate(r.from, next));
    s := new TakeWhile.Of(source, Predicate(r));
  }
}
