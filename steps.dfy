/** The step policy the builders share: how `every` turns its argument into
    the stored step amount, and the `next()` operator built from the stored
    amount and unit. */
module Steps {
  import opened Base
  import opened Temporal

  /** Math.abs on a Java `int`, as written: two's-complement negation, so
      Integer.MIN_VALUE is its own absolute value and stays negative. */
  function JavaAbs(x: int32): (r: int32)
    ensures x as int != MIN_INT ==> r as int == Magnitude(x as int)
    ensures x as int == MIN_INT ==> r == x && r < 0
  {
    if x >= 0 then x
    else if x as int == MIN_INT then x
    else -x
  }

  /** The step amount `every` evidently means to store: the distance,
      without sign. The builders store what the code writes instead
      (`JavaAbs`, or a Period or Duration field with its sign); this is the
      corrected amount the pitfalls lemmas compare them with. */
  function Magnitude(x: int): (m: nat)
    ensures m == x || m == -x
  {
    if x < 0 then -x else x
  }

  /** next(): each element is the previous one plus `amount` units when
      travelling forward and minus `amount` units when travelling backward.
      It throws exactly when the unit is not supported, and a zero amount
      leaves every element where it is. */
  function Next(kind: Kind, calendar: Calendar, forward: bool, amount: int, unit: ChronoUnit): (step: int -> Result<int>)
    ensures forall x :: step(x).Ok? <==> IsSupported(kind, unit)
    ensures forall x :: !step(x).Ok? ==> step(x) == Err(UnsupportedTemporalType)
    ensures forall x :: amount == 0 && step(x).Ok? ==> step(x).value == x
  {
    x => Plus(kind, calendar, x, if forward then amount else 0 - amount, unit)
  }

  /** With a unit of fixed length, next() is a translation by the signed
      step; with an unsupported unit, it always throws. */
  lemma NextTranslates(kind: Kind, calendar: Calendar, forward: bool, amount: int, unit: ChronoUnit)
    ensures FixedLength(kind, unit).Some? ==>
      var step := amount * FixedLength(kind, unit).value;
      forall x :: Next(kind, calendar, forward, amount, unit)(x) == Ok(x + (if forward then step else -step))
    ensures !IsSupported(kind, unit) ==>
      forall x :: Next(kind, calendar, forward, amount, unit)(x) == Err(UnsupportedTemporalType)
  {
    var signed := if forward then amount else 0 - amount;
    forall x ensures Next(kind, calendar, forward, amount, unit)(x) == Plus(kind, calendar, x, signed, unit) {
    }
    if FixedLength(kind, unit).Some? {
      var len := FixedLength(kind, unit).value;
      assert signed * len == if forward then amount * len else -(amount * len);
    }
  }
}
