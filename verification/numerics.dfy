/**
 The numeric vocabulary shared by the filter and the meter: an Option for values
 that JavaScript would turn into NaN or Infinity, the transcendental functions of
 JavaScript's Math object (left uninterpreted), Math.round, and a left-to-right sum.
 */
module Numerics {

  /** A value that may be missing. `None` stands for a result that JavaScript
      would compute as NaN or Infinity (a division by zero, a square root of a
      negative number). */
  datatype Option<+T> = None | Some(value: T)

  /** The four transcendental functions the loudness engine calls. Nothing is
      assumed of them here; lemmas name what they rely on. */
  datatype Transcendentals = Transcendentals(
    sqrt: real -> real,
    atan: real -> real,
    tan: real -> real,
    log10: real -> real)

  /** Strictly increasing on the positive reals, as log10 is. */
  ghost predicate StrictlyIncreasing(f: real -> real)
  {
    forall u, v :: 0.0 < u < v ==> f(u) < f(v)
  }

  /** JavaScript's Math.round: the nearest integer, halves rounded up. */
  function Round(x: real): int
  {
    (x + 0.5).Floor
  }

  /** The floor of an exact quotient is integer division (Dafny's `/` on `int`
      rounds down for a positive divisor). */
  lemma FloorOfQuotient(n: int, d: int)
    requires d > 0
    ensures (n as real / d as real).Floor == n / d
  {
    var k, r := n / d, n % d;
    assert n == k * d + r && 0 <= r < d;
    var x := n as real / d as real;
    assert x == k as real + r as real / d as real;
    assert 0.0 <= r as real / d as real < 1.0;
    assert k as real <= x < k as real + 1.0;
  }

  /** Math.round of a quotient of integers, in integer arithmetic. */
  lemma RoundQuotient(n: int, d: int)
    requires d > 0
    ensures Round(n as real / d as real) == (2 * n + d) / (2 * d)
  {
    var x := n as real / d as real;
    assert x * d as real == n as real;
    assert (x + 0.5) * (2 * d) as real == (2 * n + d) as real;
    QuotientOfProduct(x + 0.5, (2 * d) as real, (2 * n + d) as real);
    FloorOfQuotient(2 * n + d, 2 * d);
  }

  /** Dividing out a non-zero factor. */
  lemma QuotientOfProduct(y: real, c: real, z: real)
    requires c != 0.0 && y * c == z
    ensures y == z / c
  {
  }

  /** The sum of a sequence, accumulated from the first element to the last,
      starting from zero. */
  function SeqSum(s: seq<real>): real
  {
    if |s| == 0 then 0.0 else SeqSum(s[..|s| - 1]) + s[|s| - 1]
  }

  /** The sum of a sequence whose elements are all zero is zero. */
  lemma {:induction false} SeqSumZeros(s: seq<real>)
    requires forall i :: 0 <= i < |s| ==> s[i] == 0.0
    ensures SeqSum(s) == 0.0
  {
    if |s| > 0 {
      SeqSumZeros(s[..|s| - 1]);
    }
  }

  /** A sum of non-negative terms is non-negative. */
  lemma {:induction false} SeqSumNonNegative(s: seq<real>)
    requires forall i :: 0 <= i < |s| ==> s[i] >= 0.0
    ensures SeqSum(s) >= 0.0
  {
    if |s| > 0 {
      SeqSumNonNegative(s[..|s| - 1]);
    }
  }

  function Min(x: int, y: int): int
  {
    if x <= y then x else y
  }

  function Max(x: int, y: int): int
  {
    if x >= y then x else y
  }
}
