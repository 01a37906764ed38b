/** The pull machinery under a stream: a source spliterator, the unbounded
    source that `Stream.iterate(seed, f)` provides, and the take-while
    adapter that truncates a source at the first element failing a predicate. */
module Spliterators {
  import opened Base

  /** What one `tryAdvance(consumer)` call does: hand one element to the
      consumer and return true (`Item`), return false without calling the
      consumer (`NoItem`), or throw (`Thrown`). */
  datatype Pull<+T> = Item(value: T) | NoItem | Thrown(error: Error)

  /** The element that `Stream.iterate(seed, f)` yields at position `i`:
      the seed, then `f` applied to the previous element. An exception from
      `f` is thrown at the pull that needed it, and again at every later
      pull, since the iterator keeps the element it last produced. */
  function IterateAt<T>(seed: T, f: T -> Result<T>, i: nat): (p: Pull<T>)
    ensures !p.NoItem?
    ensures i == 0 ==> p == Item(seed)
  {
    if i == 0 then Item(seed)
    else
      var previous := IterateAt(seed, f, i - 1);
      if previous.Item? then
        (match f(previous.value) case Ok(y) => Item(y) case Err(e) => Thrown(e))
      else previous
  }

  /** All the elements of `Stream.iterate(seed, f).spliterator()`, by position. */
  function Iterate<T>(seed: T, f: T -> Result<T>): (elements: nat -> Pull<T>) {
    (i: nat) => IterateAt(seed, f, i)
  }

  /** `xs` is what a take-while over `elements`, starting at position
      `start`, emits before it stops: its longest prefix of items that pass
      `p`. The element right after it is not a passing item: it fails `p`, or
      the source has run out, or the source throws there. */
  ghost predicate IsTakeWhile<T>(xs: seq<T>, elements: nat -> Pull<T>, start: nat, p: T -> bool) {
    && (forall i | 0 <= i < |xs| :: elements(start + i) == Item(xs[i]) && p(xs[i]))
    && !(elements(start + |xs|).Item? && p(elements(start + |xs|).value))
  }

  /** Position `k` of a run of passing items holds a passing item. */
  lemma PassesAt<T>(ys: seq<T>, elements: nat -> Pull<T>, start: nat, p: T -> bool, k: nat)
    requires forall i | 0 <= i < |ys| :: elements(start + i) == Item(ys[i]) && p(ys[i])
    requires k < |ys|
    ensures elements(start + k).Item? && p(elements(start + k).value)
  {
    assert elements(start + k) == Item(ys[k]);
  }

  /** Anything that consists of passing items, as the take-while has emitted
      so far, is a prefix of the whole take-while. */
  lemma {:induction false} PassingPrefix<T>(ys: seq<T>, xs: seq<T>, elements: nat -> Pull<T>, start: nat, p: T -> bool)
    requires forall i | 0 <= i < |ys| :: elements(start + i) == Item(ys[i]) && p(ys[i])
    requires IsTakeWhile(xs, elements, start, p)
    ensures |ys| <= |xs| && ys == xs[..|ys|]
  {
    if |xs| < |ys| {
      PassesAt(ys, elements, start, p, |xs|);
    }
    forall i | 0 <= i < |ys| ensures ys[i] == xs[i] {
      assert elements(start + i) == Item(ys[i]) && elements(start + i) == Item(xs[i]);
    }
  }

  /** A source determines its take-while: two drains of it agree. */
  lemma {:induction false} TakeWhileUnique<T>(xs: seq<T>, ys: seq<T>, elements: nat -> Pull<T>, start: nat, p: T -> bool)
    requires IsTakeWhile(xs, elements, start, p) && IsTakeWhile(ys, elements, start, p)
    ensures xs == ys
  {
    PassingPrefix(xs, ys, elements, start, p);
    PassingPrefix(ys, xs, elements, start, p);
  }

  /** A spliterator: a cursor over a fixed succession of pulls. */
  class Spliterator<T> {
    const elements: nat -> Pull<T>
    var position: nat

    constructor (elements: nat -> Pull<T>)
      ensures this.elements == elements && position == 0
    {
      this.elements := elements;
      position := 0;
    }

    /** Spliterator.tryAdvance: the next pull; only an item moves the cursor. */
    method TryAdvance() returns (p: Pull<T>)
      modifies this
      ensures p == elements(old(position))
      ensures position == old(position) + (if p.Item? then 1 else 0)
    {
      p := elements(position);
      if p.Item? {
        position := position + 1;
      }
    }
  }

  /** The take-while adapter. `emitted` is ghost bookkeeping: every element
      handed to a consumer so far. */
  class TakeWhile<T> {
    const source: Spliterator<T>
    const test: T -> bool
    var hasEnded: bool
    ghost const start: nat
    ghost var emitted: seq<T>

    /** The adapter has pulled exactly what it emitted, plus the one element
        it rejected if it has ended; what it emitted all passed. */
    ghost predicate Valid()
      reads this, source
    {
      && source.position == start + |emitted| + (if hasEnded then 1 else 0)
      && (forall i | 0 <= i < |emitted| :: source.elements(start + i) == Item(emitted[i]) && test(emitted[i]))
      && (hasEnded ==> source.elements(start + |emitted|).Item? && !test(source.elements(start + |emitted|).value))
    }

    /** TakeWhile.of(spliterator, predicate). */
    constructor Of(source: Spliterator<T>, test: T -> bool)
      ensures this.source == source && this.test == test
      ensures start == source.position && !hasEnded && emitted == []
      ensures Valid()
    {
      this.source := source;
      this.test := test;
      hasEnded := false;
      start := source.position;
      emitted := [];
    }

    /** tryAdvance: at most one pull from the source, none once ended. A
        passing element goes to the consumer; the first failing one ends the
        adapter and is dropped; the source running out or throwing leaves
        `hasEnded` as it was. */
    method TryAdvance() returns (r: Pull<T>)
      requires Valid()
      modifies this, source
      ensures Valid()
      ensures old(hasEnded) ==> hasEnded && r == NoItem && source.position == old(source.position) && emitted == old(emitted)
      ensures !old(hasEnded) ==>
        var p := source.elements(old(source.position));
        && (p.Item? && test(p.value) ==>
              r == p && !hasEnded && emitted == old(emitted) + [p.value] && source.position == old(source.position) + 1)
        && (p.Item? && !test(p.value) ==>
              r == NoItem && hasEnded && emitted == old(emitted) && source.position == old(source.position) + 1)
        && (!p.Item? ==>
              r == p && !hasEnded && emitted == old(emitted) && source.position == old(source.position))
      ensures !r.Item? ==>
        if hasEnded then r == NoItem && source.elements(start + |emitted|).Item?
        else r == source.elements(start + |emitted|)
    {
      if hasEnded {
        return NoItem;
      }
      var p := source.TryAdvance();
      if p.Item? {
        if test(p.value) {
          r := p;
          emitted := emitted + [p.value];
        } else {
          r := NoItem;
          hasEnded := true;
        }
      } else {
        r := p;
      }
    }

    /** forEachRemaining as AbstractSpliterator inherits it: tryAdvance until
        it returns false. `all` is the whole take-while of the source; the
        drain hands over the rest of it, and rethrows the source's exception
        if that is what stopped it. The adapter ends up ended exactly when
        it consumed a rejected element, which is then the only element it
        pulled and did not emit. */
    method ForEachRemaining(ghost all: seq<T>) returns (taken: seq<T>, failure: Option<Error>)
      requires Valid()
      requires IsTakeWhile(all, source.elements, start, test)
      modifies this, source
      ensures Valid() && emitted == all
      ensures |old(emitted)| <= |all| && taken == all[|old(emitted)|..]
      ensures failure.Some? <==> source.elements(start + |all|).Thrown?
      ensures failure.Some? ==> failure.value == source.elements(start + |all|).error
      ensures hasEnded <==> source.elements(start + |all|).Item?
    {
      ghost var prior := emitted;
      taken, failure := [], None;
      var more := true;
      PassingPrefix(emitted, all, source.elements, start, test);
      while more
        invariant Valid() && prior + taken == emitted && |emitted| <= |all|
        invariant !more ==> emitted == all
        invariant !more ==> (failure.Some? <==> source.elements(start + |all|).Thrown?)
        invariant !more && failure.Some? ==> failure.value == source.elements(start + |all|).error
        invariant !more ==> (hasEnded <==> source.elements(start + |all|).Item?)
        decreases |all| - |emitted| + (if more then 1 else 0)
      {
        var r := TryAdvance();
        PassingPrefix(emitted, all, source.elements, start, test);
        if r.Item? {
          taken := taken + [r.value];
        } else {
          TakeWhileUnique(emitted, all, source.elements, start, test);
          failure := if r.Thrown? then Some(r.error) else None;
          more := false;
        }
      }
    }
  }
}
