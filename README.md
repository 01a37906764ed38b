# java-timestream: a verified model of the range streams

java-timestream builds lazy streams of `java.time` values. A builder takes a
start (`from`), an optional end that is either included (`to`) or excluded
(`until`), and a step (`every`). `stream()` then yields the start and each
value one step further, until the next value would pass the end. With no end
the stream is endless. When the end lies before the start, the stream runs
backwards through time. The engine has three parts:

- `AbstractComparableStream` holds the range fields (`from`, `to`, `closedRange`).
  It derives the direction (`isForward`) and the stopping test (`canTake`).
  `stream()` wraps the unbounded `Stream.iterate(from, next())` in a take-while.
- `TakeWhile` is a spliterator with a `hasEnded` flag. It passes on source
  elements while a predicate holds. It drops the first element that fails the
  predicate, and it never pulls from the source again after that.
- Three builders set the step: `LocalDateStream` (default 1 DAYS),
  `YearMonthStream` (default 1 MONTHS) and `LocalDateTimeStream` (default 1 SECONDS).
  Each one stores an amount and a unit: `Math.abs` of the `int` given to
  `every`, or a field of the Period or Duration given to it, sign included.
  Its `next()` adds the amount when travelling forward and subtracts it when
  travelling backward.

The model represents each temporal value as an integer on its own scale:
a LocalDate is its epoch day, a YearMonth is its month index, and a
LocalDateTime is its nanosecond on the local time-line. A unit of fixed
length is an exact multiple on that scale: a week is 7 days, a decade is
120 months, an hour is 3.6·10¹² ns. Units whose length varies (months and
years of days, eras) go through a `Calendar` function that the caller
supplies. Java exceptions become `Outcome`/`Result` values, `null` becomes
`Option`, and Java's overloads get distinct names: `To`/`ToRelative`,
`Until`/`UntilRelative`, `Every`/`EveryPeriod`/`EveryDuration`.

Modules:

- `Base` (base.dfy) holds `Option`, `Result`, `Outcome`, the two exceptions and `int32`.
- `Temporal` (temporal.dfy) holds `ChronoUnit`, the units each kind supports, and `plus(n, unit)`.
- `Spliterators` (take_while.dfy) holds the source spliterator, `Stream.iterate`
  and the `TakeWhile` class, with `tryAdvance` and the inherited `forEachRemaining` drain.
- `ComparableStream` (comparable_stream.dfy) holds the range fields,
  `isForward`, `canTake` and `stream()`.
- `Steps` (steps.dfy) holds `Math.abs` on an `int` and the `next()` operator.
- `StreamLaws` (stream_laws.dfy) gives a closed form for a bounded stream
  with a fixed step. It also names the configurations that never end.
- `LocalDates`, `YearMonths` and `LocalDateTimes` (local_dates.dfy,
  year_months.dfy, local_date_times.dfy) are the builder classes. Each file
  also holds its test scenarios as methods with exact results.
- `Pitfalls` (pitfalls.dfy) covers the stored amounts that make a bounded
  stream walk away from its end, and what storing the magnitude restores.

One test expectation holds only for some months.
`LocalDateStreamTest.stopsBeforeToWhenEveryPeriodIsAfterEndDate` expects
`[now, now + 15]` for `until(now.plusMonths(1))` every `P15D`.
When the span from `now` to `now.plusMonths(1)` is 31 days (now = 10
January, say), `now + 30` is still before the end and is emitted as well.
`LocalDates.StopsBeforeToWhenEveryPeriodIsAfterEndDate` states both cases.

## Model

| member | source | states |
|---|---|---|
| Temporal.Plus | src/main/java/com/ginsberg/timestream/LocalDateStream.java:100 | `plus(n, unit)` succeeds exactly for a unit the kind supports and otherwise throws UnsupportedTemporalType; `plus(0, unit)` is the identity; a fixed-length unit moves by `n` lengths |
| Spliterators.IterateAt | src/main/java/com/ginsberg/timestream/AbstractComparableStream.java:85 | `iterate(from, next())` never runs out, and its first element is the start |
| Spliterators.Spliterator.TryAdvance | src/main/java/com/ginsberg/timestream/AbstractComparableStream.java:85 | the source hands out the element at its cursor, and only an element moves the cursor |
| Spliterators.PassingPrefix | src/main/java/com/ginsberg/timestream/TakeWhile.java:60-73 | whatever the adapter has emitted so far is a prefix of the longest passing prefix of the source |
| Spliterators.TakeWhileUnique | src/main/java/com/ginsberg/timestream/TakeWhile.java:60-73 | a source and a predicate determine the take-while uniquely |
| Spliterators.TakeWhile.Of | src/main/java/com/ginsberg/timestream/TakeWhile.java:48-58 | a new adapter has not ended, has emitted nothing and starts at the source's cursor |
| Spliterators.TakeWhile.TryAdvance | src/main/java/com/ginsberg/timestream/TakeWhile.java:60-73 | once ended: returns false and does not pull. Otherwise it pulls exactly one element. A passing element is emitted; a failing one is dropped and sets `hasEnded`; an exhausted or throwing source leaves `hasEnded` as it was. `hasEnded` is never reset. |
| Spliterators.TakeWhile.ForEachRemaining | src/main/java/com/ginsberg/timestream/TakeWhile.java:42 | draining emits exactly the rest of the longest passing prefix. It rethrows the source's exception if one stopped it. It ends with `hasEnded` exactly when it consumed one rejected element. |
| ComparableStream.IsForward | src/main/java/com/ginsberg/timestream/AbstractComparableStream.java:62-64 | backward exactly when there is an end strictly before the start; `from == to` is forward |
| ComparableStream.CanTake | src/main/java/com/ginsberg/timestream/AbstractComparableStream.java:103-118 | with no end every value is accepted. With an end, a value is accepted exactly when it is strictly short of the end in the direction of travel, or equal to an included end. |
| ComparableStream.ComparableRange.constructor | src/main/java/com/ginsberg/timestream/AbstractComparableStream.java:47-50 | a new range has its start, no end, and `closedRange` false |
| ComparableStream.ComparableRange.SetTo | src/main/java/com/ginsberg/timestream/AbstractComparableStream.java:52-55 | the end becomes `to` and is included; the start is unchanged |
| ComparableStream.ComparableRange.SetUntil | src/main/java/com/ginsberg/timestream/AbstractComparableStream.java:57-60 | the end becomes `until` and is excluded; the start is unchanged |
| ComparableStream.Materialize | src/main/java/com/ginsberg/timestream/AbstractComparableStream.java:82-88 | `stream()` is a fresh take-while over `iterate(from, next)`, tested by `canTake`, with nothing pulled yet |
| Steps.JavaAbs | src/main/java/com/ginsberg/timestream/LocalDateStream.java:144 | `Math.abs` on an int is the magnitude, except for Integer.MIN_VALUE, which stays negative |
| Steps.Magnitude | src/main/java/com/ginsberg/timestream/LocalDateStream.java:144 | the amount `every` evidently means to store is the argument or its negation, never negative |
| Steps.Next | src/main/java/com/ginsberg/timestream/LocalDateStream.java:167-170 | `next()` throws UnsupportedTemporalType exactly when the unit is not supported, and never otherwise; a zero amount leaves every element in place |
| Steps.NextTranslates | src/main/java/com/ginsberg/timestream/LocalDateStream.java:167-170 | with a fixed-length unit, `next()` adds `amount` units forward and subtracts them backward; with an unsupported unit it always throws |
| StreamLaws.IterateTranslation | src/main/java/com/ginsberg/timestream/AbstractComparableStream.java:85 | with a step that is a translation by `d`, the i-th element is `from + i·d` |
| StreamLaws.IterateNeverThrows | src/main/java/com/ginsberg/timestream/AbstractComparableStream.java:85 | a step that never throws yields an element at every position |
| StreamLaws.AcceptsIffBeforeCount | src/main/java/com/ginsberg/timestream/AbstractComparableStream.java:103-118 | `canTake` accepts the element `i` steps from the start exactly when `i` is below the closed-form count |
| StreamLaws.BoundedTakeWhile | src/main/java/com/ginsberg/timestream/AbstractComparableStream.java:82-88 | a bounded stream with a positive fixed step yields exactly the closed form: the longest accepted prefix of the iteration |
| StreamLaws.ExpectedBetweenEnds | src/main/java/com/ginsberg/timestream/AbstractComparableStream.java:103-118 | every element lies between start and end, and never on an excluded end |
| StreamLaws.ExpectedMonotone | src/test/java/com/ginsberg/timestream/LocalDateStreamTest.java:128-137 | elements strictly increase when travelling forward and strictly decrease when travelling backward |
| StreamLaws.ExpectedEnds | src/main/java/com/ginsberg/timestream/AbstractComparableStream.java:114-115 | the stream is empty exactly for `until(from)`; otherwise it begins at the start, and one more step would be rejected |
| StreamLaws.ExpectedReachesEnd | src/main/java/com/ginsberg/timestream/AbstractComparableStream.java:114-115 | with an included end that the step divides, the last element is the end |
| StreamLaws.UnboundedNeverEnds | src/main/java/com/ginsberg/timestream/AbstractComparableStream.java:105-106 | with no end and a step that never throws, every element is accepted and no drain completes |
| StreamLaws.StepAwayNeverEnds | src/main/java/com/ginsberg/timestream/AbstractComparableStream.java:108-113 | a step that does not move toward the end makes a bounded stream endless once its start is accepted |
| StreamLaws.FixedUnitStream | src/main/java/com/ginsberg/timestream/AbstractComparableStream.java:82-88 | a builder's bounded stream with a fixed-length unit and a positive amount (at least one) is exactly the closed form, and the element after it exists |
| StreamLaws.FixedUnitUnbounded | src/main/java/com/ginsberg/timestream/AbstractComparableStream.java:105-106 | without an end, position `i` holds `from + i·step`, and it is accepted |
| LocalDates.LocalDateStream.constructor | src/main/java/com/ginsberg/timestream/LocalDateStream.java:51-56 | a new builder has an unbounded range and a step of 1 DAYS |
| LocalDates.LocalDateStream.From | src/main/java/com/ginsberg/timestream/LocalDateStream.java:73-75 | a null start throws NullPointerException and builds nothing; otherwise a fresh builder with the default step |
| LocalDates.LocalDateStream.To | src/main/java/com/ginsberg/timestream/LocalDateStream.java:83-86 | the end becomes the given date and is included; null removes the end |
| LocalDates.LocalDateStream.Until | src/main/java/com/ginsberg/timestream/LocalDateStream.java:110-113 | the end becomes the given date and is excluded; null removes the end |
| LocalDates.LocalDateStream.ToRelative | src/main/java/com/ginsberg/timestream/LocalDateStream.java:97-102 | included end at `from.plus(n, unit)`; a null or unsupported unit throws and leaves the range unchanged |
| LocalDates.LocalDateStream.UntilRelative | src/main/java/com/ginsberg/timestream/LocalDateStream.java:124-129 | excluded end at `from.plus(n, unit)`; a null or unsupported unit throws and leaves the range unchanged |
| LocalDates.LocalDateStream.Every | src/main/java/com/ginsberg/timestream/LocalDateStream.java:141-148 | a null unit throws and changes nothing. Otherwise the step becomes `Math.abs(n)` units (Integer.MIN_VALUE stays negative), and the probe then throws exactly for a unit LocalDate does not support, with the new step already stored. |
| LocalDates.LocalDateStream.EveryPeriod | src/main/java/com/ginsberg/timestream/LocalDateStream.java:159-165 | a null period throws and changes nothing; otherwise the step becomes the days field, sign included, in DAYS |
| LocalDates.LocalDateStream.Stream | src/main/java/com/ginsberg/timestream/LocalDateStream.java:167-170 | the stream iterates `next()` from the start, in the direction of the range, and tests with `canTake` |
| LocalDates.LocalDateStream.Collect | src/main/java/com/ginsberg/timestream/AbstractComparableStream.java:82-88 | collecting a bounded stream with a positive step (amount ≥ 1) of DAYS or WEEKS gives the closed form and throws nothing |
| LocalDates.StopsBeforeUntilDateGivenByChronoUnits | src/test/java/com/ginsberg/timestream/LocalDateStreamTest.java:47-56 | `until(2, DAYS)` yields `[now, now+1]` |
| LocalDates.StopsBeforeUntilDateGivenByLocalDate | src/test/java/com/ginsberg/timestream/LocalDateStreamTest.java:58-67 | `until(now+2)` yields `[now, now+1]` |
| LocalDates.StopsOnToDateGivenByChronoUnits | src/test/java/com/ginsberg/timestream/LocalDateStreamTest.java:69-78 | `to(2, DAYS)` yields `[now, now+1, now+2]` |
| LocalDates.StopsOnToDateGivenByLocalDate | src/test/java/com/ginsberg/timestream/LocalDateStreamTest.java:80-89 | `to(now+2)` yields `[now, now+1, now+2]` |
| LocalDates.StopsBeforeToWhenEveryIsAfterEndDate | src/test/java/com/ginsberg/timestream/LocalDateStreamTest.java:91-101 | `to(3, DAYS)` every 2 DAYS yields `[now, now+2]`; `now+4` is not emitted |
| LocalDates.IdenticalFromAndToCreateOnePointStream | src/test/java/com/ginsberg/timestream/LocalDateStreamTest.java:103-112 | `to(now)` yields `[now]`, and `until(now)` yields `[]` |
| LocalDates.NoToDateRunsForever | src/test/java/com/ginsberg/timestream/LocalDateStreamTest.java:114-126 | without an end, the first N elements are consecutive days and the last is `now + (N-1)` |
| LocalDates.ToBeforeFromRunsBackThroughTime | src/test/java/com/ginsberg/timestream/LocalDateStreamTest.java:128-137 | `to(-2, DAYS)` yields `[now, now-1, now-2]` |
| LocalDates.StopsBeforeToWhenEveryPeriodIsAfterEndDate | src/test/java/com/ginsberg/timestream/LocalDateStreamTest.java:139-150 | `until(now.plusMonths(1))` every P15D yields `[now, now+15]` when `now` to `now.plusMonths(1)` spans up to 30 days, and `[now, now+15, now+30]` when it spans 31 |
| YearMonths.YearMonthStream.constructor | src/main/java/com/ginsberg/timestream/YearMonthStream.java:51-56 | a new builder has an unbounded range and a step of 1 MONTHS |
| YearMonths.YearMonthStream.From | src/main/java/com/ginsberg/timestream/YearMonthStream.java:73-75 | a null start throws NullPointerException and builds nothing; otherwise a fresh builder with the default step |
| YearMonths.YearMonthStream.To | src/main/java/com/ginsberg/timestream/YearMonthStream.java:83-86 | the end becomes the given month and is included; null removes the end |
| YearMonths.YearMonthStream.Until | src/main/java/com/ginsberg/timestream/YearMonthStream.java:110-113 | the end becomes the given month and is excluded; null removes the end |
| YearMonths.YearMonthStream.ToRelative | src/main/java/com/ginsberg/timestream/YearMonthStream.java:97-102 | included end at `from.plus(n, unit)`; a null or unsupported unit throws and leaves the range unchanged |
| YearMonths.YearMonthStream.UntilRelative | src/main/java/com/ginsberg/timestream/YearMonthStream.java:124-129 | excluded end at `from.plus(n, unit)`; a null or unsupported unit throws and leaves the range unchanged |
| YearMonths.YearMonthStream.Every | src/main/java/com/ginsberg/timestream/YearMonthStream.java:141-148 | a null unit throws and changes nothing. Otherwise the step becomes `Math.abs(n)` units (Integer.MIN_VALUE stays negative), and the probe then throws exactly for a unit YearMonth does not support, with the new step already stored. |
| YearMonths.YearMonthStream.EveryPeriod | src/main/java/com/ginsberg/timestream/YearMonthStream.java:158-164 | the null check on the unit field always passes, so the unit becomes MONTHS even when a null period then throws with the amount unchanged; otherwise the step is the months field, sign included |
| YearMonths.YearMonthStream.Stream | src/main/java/com/ginsberg/timestream/YearMonthStream.java:166-169 | the stream iterates `next()` from the start, in the direction of the range, and tests with `canTake` |
| YearMonths.YearMonthStream.Collect | src/main/java/com/ginsberg/timestream/AbstractComparableStream.java:82-88 | collecting a bounded stream with a positive step (amount ≥ 1) of a fixed-length unit gives the closed form and throws nothing |
| YearMonths.StopsBeforeUntilDateGivenByChronoUnits | src/test/java/com/ginsberg/timestream/YearMonthStreamTest.java:46-55 | `until(2, MONTHS)` yields `[m, m+1]` |
| YearMonths.StopsBeforeUntilDateGivenByYearMonth | src/test/java/com/ginsberg/timestream/YearMonthStreamTest.java:57-66 | `until(m+2)` yields `[m, m+1]` |
| YearMonths.StopsOnToDateGivenByChronoUnits | src/test/java/com/ginsberg/timestream/YearMonthStreamTest.java:68-77 | `to(2, MONTHS)` yields `[m, m+1, m+2]` |
| YearMonths.StopsOnToDateGivenByYearMonth | src/test/java/com/ginsberg/timestream/YearMonthStreamTest.java:79-88 | `to(m+2)` yields `[m, m+1, m+2]` |
| YearMonths.StopsBeforeToWhenEveryIsAfterEndDate | src/test/java/com/ginsberg/timestream/YearMonthStreamTest.java:90-100 | `to(3, MONTHS)` every 2 MONTHS yields `[m, m+2]` |
| YearMonths.IdenticalFromAndToCreateOnePointStream | src/test/java/com/ginsberg/timestream/YearMonthStreamTest.java:102-111 | `to(m)` yields `[m]` |
| YearMonths.NoToDateRunsForever | src/test/java/com/ginsberg/timestream/YearMonthStreamTest.java:113-125 | without an end, the first N elements are consecutive months and the last is `m + (N-1)` |
| YearMonths.ToBeforeFromRunsBackThroughTime | src/test/java/com/ginsberg/timestream/YearMonthStreamTest.java:127-136 | `to(-2, MONTHS)` yields `[m, m-1, m-2]` |
| YearMonths.StopsBeforeToWhenEveryDurationIsAfterEndDate | src/test/java/com/ginsberg/timestream/YearMonthStreamTest.java:138-149 | `to(3, MONTHS)` every P2M yields `[m, m+2]` |
| LocalDateTimes.LocalDateTimeStream.constructor | src/main/java/com/ginsberg/timestream/LocalDateTimeStream.java:51-56 | a new builder has an unbounded range and a step of 1 SECONDS |
| LocalDateTimes.LocalDateTimeStream.From | src/main/java/com/ginsberg/timestream/LocalDateTimeStream.java:73-75 | a null start throws NullPointerException and builds nothing; otherwise a fresh builder with the default step |
| LocalDateTimes.LocalDateTimeStream.To | src/main/java/com/ginsberg/timestream/LocalDateTimeStream.java:83-86 | the end becomes the given date-time and is included; null removes the end, so the stream becomes unbounded |
| LocalDateTimes.LocalDateTimeStream.Until | src/main/java/com/ginsberg/timestream/LocalDateTimeStream.java:110-113 | the end becomes the given date-time and is excluded; null removes the end, so the stream becomes unbounded |
| LocalDateTimes.LocalDateTimeStream.ToRelative | src/main/java/com/ginsberg/timestream/LocalDateTimeStream.java:97-102 | included end at `from.plus(n, unit)`; a null or unsupported unit throws and leaves the range unchanged |
| LocalDateTimes.LocalDateTimeStream.UntilRelative | src/main/java/com/ginsberg/timestream/LocalDateTimeStream.java:124-129 | excluded end at `from.plus(n, unit)`; a null or unsupported unit throws and leaves the range unchanged |
| LocalDateTimes.LocalDateTimeStream.Every | src/main/java/com/ginsberg/timestream/LocalDateTimeStream.java:141-147 | a null unit throws and changes nothing; otherwise the step becomes `Math.abs(n)` units (Integer.MIN_VALUE stays negative) and the call succeeds whatever the unit, because there is no probe |
| LocalDateTimes.LocalDateTimeStream.EveryDuration | src/main/java/com/ginsberg/timestream/LocalDateTimeStream.java:158-163 | the null check on the unit field always passes, so the unit becomes SECONDS even when a null duration then throws with the amount unchanged; otherwise the step is the seconds field, sign included |
| LocalDateTimes.LocalDateTimeStream.Stream | src/main/java/com/ginsberg/timestream/LocalDateTimeStream.java:165-168 | the stream iterates `next()` from the start, in the direction of the range, and tests with `canTake` |
| LocalDateTimes.LocalDateTimeStream.Collect | src/main/java/com/ginsberg/timestream/AbstractComparableStream.java:82-88 | collecting a bounded stream with a positive step (amount ≥ 1) of a fixed-length unit gives the closed form and throws nothing |
| LocalDateTimes.StopsBeforeUntilGivenByChronoUnits | src/main/java/com/ginsberg/timestream/LocalDateTimeStream.java:124-129 | `until(2, SECONDS)` yields the start and one second later |
| LocalDateTimes.StopsOnToGivenByChronoUnits | src/main/java/com/ginsberg/timestream/LocalDateTimeStream.java:97-102 | `to(2, SECONDS)` yields three instants one second apart, the end included |
| LocalDateTimes.ToBeforeFromRunsBackThroughTime | src/main/java/com/ginsberg/timestream/LocalDateTimeStream.java:165-168 | `to(-2, SECONDS)` yields three instants one second apart, going backward |
| LocalDateTimes.StopsBeforeToWhenEveryDurationIsAfterEnd | src/main/java/com/ginsberg/timestream/LocalDateTimeStream.java:158-163 | `to(3, SECONDS)` every PT2S yields the start and two seconds later |
| LocalDateTimes.EveryForeverFailsLate | src/main/java/com/ginsberg/timestream/LocalDateTimeStream.java:141-147 | `every(1, FOREVER)` is accepted; the stream hands out its start and then throws UnsupportedTemporalType on the next pull |
| Pitfalls.NegativeAmountNeverEnds | src/main/java/com/ginsberg/timestream/LocalDateStream.java:167-170 | a negative stored amount steps away from the end in both directions: the i-th element is `from + i·d` with `d` pointing away from the end, every element is accepted, and no drain completes |
| Pitfalls.AbsOfMinValueNeverEnds | src/main/java/com/ginsberg/timestream/LocalDateStream.java:144 | as written, `every(Integer.MIN_VALUE, unit)` stores -2^31, so a bounded stream walks away from its end and never yields its intended elements |
| Pitfalls.EveryNegativePeriodWalksBack | src/main/java/com/ginsberg/timestream/LocalDateStream.java:159-165 | as written, `to(2, DAYS).every(Period.ofDays(-1))` yields `now, now-1, now-2, …` for as many pulls as are made, never the intended `[now, now+1, now+2]` |
| Pitfalls.EveryMinValueWalksAway | src/main/java/com/ginsberg/timestream/LocalDateStream.java:141-148 | as written, `to(1, DAYS).every(Integer.MIN_VALUE, DAYS)` yields `now + i·(-2^31)` at every pull `i`, where the intended stream is `[now]`; in Java `plus` throws DateTimeException at about the 171st pull, once the date passes LocalDate.MIN |
| Pitfalls.MagnitudeStepEnds | src/main/java/com/ginsberg/timestream/LocalDateStream.java:144 | with the magnitude stored, every non-zero amount gives a bounded stream that ends after exactly the closed-form elements |
| Pitfalls.ZeroStepRepeatsStart | src/test/java/com/ginsberg/timestream/LocalDateStreamTest.java:172-175 | `every(0, unit)`, which is accepted, repeats the start for ever whenever the start is accepted; so does a Period whose read field is zero |

## Left out

- Calendar arithmetic of `java.time` (month lengths, leap years, eras) is not modelled. Units of varying length go through the caller's `Calendar` function, and the closed form covers fixed-length units only.
- `fromNow()` in every builder reads the system clock and is not modelled. The fail-fast probe's `now()` is the `today`/`thisMonth` parameter of `Every`.
- The `Stream`/`StreamSupport` plumbing is not modelled: `estimateSize`, characteristics, `trySplit` and parallelism. The scenarios model `limit(n)` as `n` pulls and `collect` as `ForEachRemaining`.
- `ZonedDateTimeStream` is not part of this model.
- Comparable `compareTo` is integer comparison. `java.time`'s range limits and the `DateTimeException`/`ArithmeticException` on overflow are not modelled, because integers are unbounded.
- The consumer given to `tryAdvance` is folded into the returned `Pull`, so a consumer that throws or has side effects is not modelled.
- The fluent `return this` of every builder method is dropped; the methods change the builder in place.
- ComparableStream.Materialize: the stream is built from a snapshot of the range and the step. In Java, `canTake`, `isForward` and `next()` read the fields at every call, so reconfiguring a builder after `stream()` changes streams already handed out.
- LocalDates.LocalDateStream.Stream: takes the same snapshot as `Materialize`; a builder reconfigured after `stream()` does not change the stream already handed out, as it would in Java.
- YearMonths.YearMonthStream.Stream: takes the same snapshot as `Materialize`, so later reconfiguration of the builder does not reach the stream.
- LocalDateTimes.LocalDateTimeStream.Stream: takes the same snapshot as `Materialize`, so later reconfiguration of the builder does not reach the stream.
- LocalDates.LocalDateStream.Collect: stated only for a bounded range with a step of at least one fixed-length unit, the configurations that have a closed form. Unbounded, zero-step and negative-step streams are covered by `NoToDateRunsForever` and the `Pitfalls` lemmas instead.
- YearMonths.YearMonthStream.Collect: stated only for a bounded range with a step of at least one fixed-length unit; steps in units of varying length have no closed form here.
- LocalDateTimes.LocalDateTimeStream.Collect: stated only for a bounded range with a step of at least one fixed-length unit; steps in units of varying length have no closed form here.
- Pitfalls.AbsOfMinValueNeverEnds: the endlessness is an artefact of unbounded integers. In Java, `plus` throws DateTimeException once the value leaves the type's range (for a LocalDate stepping -2^31 DAYS, after about 171 elements), so the drain ends with that exception instead; what carries over is that the intended elements are never yielded.
- Pitfalls.NegativeAmountNeverEnds: the same artefact of unbounded integers; in Java the walk away from the end stops with DateTimeException once the value leaves the type's range.
- The Java `long amount` is an unbounded `int`; `0 - amount` cannot overflow here, whereas in Java it would for a Duration whose seconds are Long.MIN_VALUE.
- `Duration.get(SECONDS)` reads only the seconds part; the nanosecond part is kept in the `Duration` value but never read, as in the source.

## Findings

| source | as written | input that shows it | evidently intended | confidence | as-written member | corrected member |
|---|---|---|---|---|---|---|
| src/main/java/com/ginsberg/timestream/LocalDateStream.java:144 | `Math.abs(amount)` on an `int` returns Integer.MIN_VALUE for Integer.MIN_VALUE; the same line appears in YearMonthStream.java and LocalDateTimeStream.java | `from(d).to(1, DAYS).every(Integer.MIN_VALUE, DAYS)`: the amount stored is -2^31, so `next()` walks away from the end and the stream never yields `[d]`; in Java `plus` eventually throws DateTimeException once the date leaves LocalDate's range | store the magnitude 2^31; the stream is then `[d]` | not executed | Pitfalls.EveryMinValueWalksAway | Pitfalls.MagnitudeStepEnds |
| src/main/java/com/ginsberg/timestream/LocalDateStream.java:162 | `every(Period)` stores `period.get(DAYS)` with its sign; YearMonthStream.java:161 (months) and LocalDateTimeStream.java:161 (Duration seconds) do the same | `from(d).to(2, DAYS).every(Period.ofDays(-1))`: forward travel adds -1 day, so the stream walks back through time and never yields `[d, d+1, d+2]`; in Java `plus` eventually throws DateTimeException once the date leaves LocalDate's range | store the magnitude, as `every(int, unit)` does; the stream is then `[d, d+1, d+2]` | not executed | Pitfalls.EveryNegativePeriodWalksBack | Pitfalls.MagnitudeStepEnds |
