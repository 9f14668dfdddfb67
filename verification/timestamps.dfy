/** The timestamp arithmetic both log-record handlers perform: a C# `long`
    holding nanoseconds since the Unix epoch is turned into milliseconds by
    two integer divisions by 1000, each rounding toward zero. */
module Timestamps {

  /** C#'s `long`. */
  newtype int64 = x: int | -0x8000_0000_0000_0000 <= x < 0x8000_0000_0000_0000

  const NanosPerMilli: int := 1_000_000

  function Abs(x: int): nat {
    if x < 0 then -x else x
  }

  /** C#'s integer `/` (Dafny's own `/` is Euclidean): the quotient rounded
      toward zero, whose sign is the product of the operands' signs. */
  function TruncDiv(a: int, b: int): (q: int)
    requires b != 0
    ensures Abs(q) * Abs(b) <= Abs(a) < Abs(q) * Abs(b) + Abs(b)
    ensures q == 0 || ((q < 0) <==> ((a < 0) != (b < 0)))
  {
    var m := Abs(a) / Abs(b);
    DivisionBounds(Abs(a), Abs(b));
    if (a < 0) == (b < 0) then m else -m
  }

  /** Euclidean division of naturals brackets the dividend. */
  lemma DivisionBounds(x: nat, y: nat)
    requires y > 0
    ensures (x / y) * y <= x < (x / y) * y + y
  {
    assert x == y * (x / y) + x % y;
  }

  /** `ms` is `ns` nanoseconds counted in whole milliseconds, rounded toward
      zero: it carries the sign of `ns` and leaves a remainder of less than
      one millisecond in magnitude. */
  ghost predicate TruncatedMillis(ns: int, ms: int) {
    && Abs(ms) * NanosPerMilli <= Abs(ns) < Abs(ms) * NanosPerMilli + NanosPerMilli
    && (ms == 0 || ((ms < 0) <==> (ns < 0)))
  }

  /** `timestamp / 1000 / 1000` on a `long`. */
  function NanosToMillis(ns: int64): (ms: int64)
    ensures TruncatedMillis(ns as int, ms as int)
  {
    var micros := TruncDiv(ns as int, 1000);
    var millis := TruncDiv(micros, 1000);
    assert Abs(millis) * NanosPerMilli == (Abs(millis) * 1000) * 1000;
    assert Abs(micros) * 1000 <= Abs(ns as int) < Abs(micros) * 1000 + 1000;
    assert Abs(millis) * 1000 <= Abs(micros) < Abs(millis) * 1000 + 1000;
    millis as int64
  }

  /** At most one millisecond count is the truncation of a nanosecond count,
      so `TruncatedMillis` pins the result down completely. */
  lemma TruncatedMillisUnique(ns: int, ms1: int, ms2: int)
    requires TruncatedMillis(ns, ms1) && TruncatedMillis(ns, ms2)
    ensures ms1 == ms2
  {
  }

  /** The two divisions by 1000 give the same result as one truncating
      division by 1_000_000. */
  lemma NanosToMillisIsOneDivision(ns: int64)
    ensures NanosToMillis(ns) as int == TruncDiv(ns as int, NanosPerMilli)
  {
    TruncatedMillisUnique(ns as int, NanosToMillis(ns) as int, TruncDiv(ns as int, NanosPerMilli));
  }

  /** For timestamps at or after the epoch, truncation is Euclidean (floor)
      division by 1_000_000. */
  lemma NanosToMillisFloorsNonNegative(ns: int64)
    requires ns >= 0
    ensures NanosToMillis(ns) as int == ns as int / NanosPerMilli
  {
    DivisionBounds(ns as int, NanosPerMilli);
    TruncatedMillisUnique(ns as int, NanosToMillis(ns) as int, ns as int / NanosPerMilli);
  }

  /** Before the epoch the result rounds toward zero, so it is one more than
      the floor whenever the timestamp is not a whole number of
      milliseconds. */
  lemma NanosToMillisBeforeEpoch(ns: int64)
    requires ns < 0
    ensures NanosToMillis(ns) as int == -((-(ns as int)) / NanosPerMilli)
    ensures (ns as int) % NanosPerMilli != 0 ==>
              NanosToMillis(ns) as int == (ns as int) / NanosPerMilli + 1
  {
    var n := -(ns as int);
    DivisionBounds(n, NanosPerMilli);
    TruncatedMillisUnique(ns as int, NanosToMillis(ns) as int, -(n / NanosPerMilli));
    if (ns as int) % NanosPerMilli != 0 {
      var q := (ns as int) / NanosPerMilli;
      assert ns as int == q * NanosPerMilli + (ns as int) % NanosPerMilli;
      TruncatedMillisUnique(ns as int, NanosToMillis(ns) as int, q + 1);
    }
  }

  /** Values at and around the first millisecond boundary. */
  lemma NanosToMillisBoundaries()
    ensures NanosToMillis(0) == 0
    ensures NanosToMillis(999_999) == 0
    ensures NanosToMillis(1_000_000) == 1
    ensures NanosToMillis(-999_999) == 0
    ensures NanosToMillis(-1_000_000) == -1
  {
    TruncatedMillisUnique(0, NanosToMillis(0) as int, 0);
    TruncatedMillisUnique(999_999, NanosToMillis(999_999) as int, 0);
    TruncatedMillisUnique(1_000_000, NanosToMillis(1_000_000) as int, 1);
    TruncatedMillisUnique(-999_999, NanosToMillis(-999_999) as int, 0);
    TruncatedMillisUnique(-1_000_000, NanosToMillis(-1_000_000) as int, -1);
  }

  /** A later timestamp never yields an earlier millisecond. */
  lemma NanosToMillisMonotonic(a: int64, b: int64)
    requires a <= b
    ensures NanosToMillis(a) <= NanosToMillis(b)
  {
    var ma, mb := NanosToMillis(a) as int, NanosToMillis(b) as int;
    assert TruncatedMillis(a as int, ma) && TruncatedMillis(b as int, mb);
  }
}
