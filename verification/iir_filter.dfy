/**
 One second-order (biquad) IIR filter stage: the coefficient conversion from the
 48 kHz reference design to another sample rate, the stage's construction with
 zeroed histories, and the difference equation applied sample by sample.
 */
module IirFilter {
  import opened Numerics

  /** A three-slot array of reals: a coefficient array or a sample history. */
  type Triple = s: seq<real> | |s| == 3 witness [0.0, 0.0, 0.0]

  const Zeros: Triple := [0.0, 0.0, 0.0]

  /** The sample rate the fixed coefficient designs are written for. */
  const ReferenceRate: int := 48000

  /** A filter stage. `a` is the denominator (a[0] is never read), `b` the
      numerator; `x` and `y` hold the last three input and output samples, the
      most recent first. */
  datatype Filter = Filter(a: Triple, b: Triple, x: Triple, y: Triple)

  /** A freshly constructed stage: both histories zero. */
  function Fresh(a: Triple, b: Triple): (f: Filter)
    ensures f.a == a && f.b == b
    ensures forall i :: 0 <= i < 3 ==> f.x[i] == 0.0 && f.y[i] == 0.0
  {
    Filter(a, b, Zeros, Zeros)
  }

  // ---------------------------------------------------------------------------
  // Conversion of a 48 kHz design to another sample rate
  // ---------------------------------------------------------------------------

  /** The analog prototype implied by a 48 kHz design: the pre-warped corner
      `k`, the quality factor `q`, and the band, high and low gains. */
  datatype Prototype = Prototype(k: real, q: real, vB: real, vH: real, vL: real)

  /** Recovers the prototype from the coefficients; `None` where the source
      divides by zero or takes the square root of a negative number. */
  function Analyse(a: Triple, b: Triple, sqrt: real -> real): Option<Prototype>
  {
    var m := a[2] - a[1] + 1.0;
    var p := a[1] + a[2] + 1.0;
    if m == 0.0 || p == 0.0 || a[2] == 1.0 || p / m < 0.0 then None
    else
      var kOverQ := (2.0 - 2.0 * a[2]) / m;
      assert kOverQ != 0.0 by { NonZeroQuotient(2.0 - 2.0 * a[2], m); }
      var k := sqrt(p / m);
      Some(Prototype(k, k / kOverQ, (b[0] - b[2]) / (1.0 - a[2]),
                     (b[0] - b[1] + b[2]) / m, (b[0] + b[1] + b[2]) / p))
  }

  lemma NonZeroQuotient(x: real, y: real)
    requires x != 0.0 && y != 0.0
    ensures x / y != 0.0
  {
  }

  /** The corner re-warped for `rate`: tan(atan(k) * 48000 / rate). */
  function WarpedK(k: real, rate: int, t: Transcendentals): real
    requires rate != 0
  {
    t.tan(t.atan(k) * ReferenceRate as real / rate as real)
  }

  /** The common normalising factor 1 / (1 + K/q + K^2), when it is finite. */
  predicate FiniteFactor(pr: Prototype, newK: real)
  {
    pr.q != 0.0 && 1.0 + newK / pr.q + newK * newK != 0.0
  }

  function CommonFactor(pr: Prototype, newK: real): real
    requires FiniteFactor(pr, newK)
  {
    1.0 / (1.0 + newK / pr.q + newK * newK)
  }

  function Numerator(pr: Prototype, newK: real): Triple
    requires FiniteFactor(pr, newK)
  {
    Synthesis(pr.vH, pr.vB * newK / pr.q, pr.vL * newK * newK, CommonFactor(pr, newK))
  }

  /** The numerator from the high gain, the band term vB K / q, the low term
      vL K^2 and the common factor. */
  function Synthesis(vH: real, vBk: real, vLkk: real, cf: real): Triple
  {
    [ (vH + vBk + vLkk) * cf, 2.0 * (vLkk - vH) * cf, (vH - vBk + vLkk) * cf ]
  }

  /** The denominator with a[1] as the bilinear transform gives it,
      2 (K^2 - 1) / (1 + K/q + K^2). */
  function Denominator(pr: Prototype, newK: real): Triple
    requires FiniteFactor(pr, newK)
  {
    var cf := CommonFactor(pr, newK);
    [ 1.0, 2.0 * (newK * newK - 1.0) * cf, (1.0 - newK / pr.q + newK * newK) * cf ]
  }

  /** The denominator as IirFilter.ts writes it: a[1] = 2 (1 - K^2) / (...),
      the negation of the bilinear-transform value. */
  function DenominatorAsWritten(pr: Prototype, newK: real): Triple
    requires FiniteFactor(pr, newK)
  {
    var cf := CommonFactor(pr, newK);
    [ 1.0, 2.0 * (1.0 - newK * newK) * cf, (1.0 - newK / pr.q + newK * newK) * cf ]
  }

  /** The general branch of the conversion (every rate but the reference one),
      with the corrected a[1]. */
  function ConvertGeneral(a: Triple, b: Triple, rate: int, t: Transcendentals): (r: Option<(Triple, Triple)>)
    ensures r.Some? ==> r.value.0[0] == 1.0
  {
    if rate == 0 then None
    else match Analyse(a, b, t.sqrt)
      case None => None
      case Some(pr) =>
        var newK := WarpedK(pr.k, rate, t);
        if FiniteFactor(pr, newK) then Some((Denominator(pr, newK), Numerator(pr, newK))) else None
  }

  /** The general branch exactly as written in the source. It differs from
      `ConvertGeneral` only in the denominator it calls. */
  function ConvertGeneralAsWritten(a: Triple, b: Triple, rate: int, t: Transcendentals): (r: Option<(Triple, Triple)>)
    ensures r.Some? ==> r.value.0[0] == 1.0
  {
    if rate == 0 then None
    else match Analyse(a, b, t.sqrt)
      case None => None
      case Some(pr) =>
        var newK := WarpedK(pr.k, rate, t);
        if FiniteFactor(pr, newK) then Some((DenominatorAsWritten(pr, newK), Numerator(pr, newK))) else None
  }

  /** Adapts a 48 kHz design to `rate`: the coefficients unchanged at 48 kHz,
      otherwise three fresh entries each with a[0] = 1 (`None` where the source
      would produce non-finite coefficients). */
  function ConvertToSampleRate(a: Triple, b: Triple, rate: int, t: Transcendentals): (r: Option<(Triple, Triple)>)
    ensures rate == ReferenceRate ==> r == Some((a, b))
    ensures rate != ReferenceRate && r.Some? ==> r.value.0[0] == 1.0
  {
    if rate == ReferenceRate then Some((a, b)) else ConvertGeneral(a, b, rate, t)
  }

  /** The conversion exactly as written in the source. */
  function ConvertToSampleRateAsWritten(a: Triple, b: Triple, rate: int, t: Transcendentals): (r: Option<(Triple, Triple)>)
    ensures rate == ReferenceRate ==> r == Some((a, b))
    ensures rate != ReferenceRate && r.Some? ==> r.value.0[0] == 1.0
  {
    if rate == ReferenceRate then Some((a, b)) else ConvertGeneralAsWritten(a, b, rate, t)
  }

  /** The ratio whose square root is the prototype's corner k. */
  function CornerRatio(a: Triple): real
    requires a[2] - a[1] + 1.0 != 0.0
  {
    (a[1] + a[2] + 1.0) / (a[2] - a[1] + 1.0)
  }

  /** What the round-trip lemmas assume of the transcendental functions at the
      one point they use: sqrt is a square root there and tan undoes atan. */
  ghost predicate ExactAt(a: Triple, t: Transcendentals)
  {
    a[2] - a[1] + 1.0 != 0.0
    && var k := t.sqrt(CornerRatio(a));
    k * k == CornerRatio(a) && t.tan(t.atan(k)) == k
  }

  /** Synthesising the analysed prototype at its own corner gives back the
      normalised design it came from: the general branch evaluated at the
      reference rate agrees with the early return. */
  lemma ConvertRoundTrip(a: Triple, b: Triple, t: Transcendentals)
    requires a[0] == 1.0
    requires Analyse(a, b, t.sqrt).Some?
    requires ExactAt(a, t)
    ensures ConvertGeneral(a, b, ReferenceRate, t) == Some((a, b))
  {
    var pr := Analyse(a, b, t.sqrt).value;
    WarpAtReference(pr.k, t);
    SynthesisAtOwnCorner(a, b, pr);
    assert Denominator(pr, pr.k) == a;
  }

  /** As written, the same round trip negates a[1]. */
  lemma AsWrittenNegatesPole(a: Triple, b: Triple, t: Transcendentals)
    requires a[0] == 1.0
    requires Analyse(a, b, t.sqrt).Some?
    requires ExactAt(a, t)
    ensures ConvertGeneralAsWritten(a, b, ReferenceRate, t) == Some(([1.0, -a[1], a[2]], b))
  {
    var pr := Analyse(a, b, t.sqrt).value;
    WarpAtReference(pr.k, t);
    SynthesisAtOwnCorner(a, b, pr);
    assert DenominatorAsWritten(pr, pr.k)[1] == -Denominator(pr, pr.k)[1];
  }

  /** At every rate the corrected and the as-written conversion, and their
      general branches, fail on the same inputs; where both conversions are
      finite they agree on b, a[0] and a[2] and differ only in the sign of a[1]. */
  lemma CorrectionOnlyNegatesPole(a: Triple, b: Triple, rate: int, t: Transcendentals)
    ensures ConvertGeneral(a, b, rate, t).Some? <==> ConvertGeneralAsWritten(a, b, rate, t).Some?
    ensures ConvertToSampleRate(a, b, rate, t).Some? <==> ConvertToSampleRateAsWritten(a, b, rate, t).Some?
    ensures rate != ReferenceRate && ConvertToSampleRate(a, b, rate, t).Some? ==>
      var (c, w) := (ConvertToSampleRate(a, b, rate, t).value, ConvertToSampleRateAsWritten(a, b, rate, t).value);
      c.1 == w.1 && c.0[0] == w.0[0] && c.0[2] == w.0[2] && c.0[1] == -w.0[1]
  {
    if rate != ReferenceRate && rate != 0 && Analyse(a, b, t.sqrt).Some? {
      var pr := Analyse(a, b, t.sqrt).value;
      var newK := WarpedK(pr.k, rate, t);
      if FiniteFactor(pr, newK) {
        var cf := CommonFactor(pr, newK);
        assert 2.0 * (newK * newK - 1.0) * cf == -(2.0 * (1.0 - newK * newK) * cf);
      }
    }
  }

  lemma WarpAtReference(k: real, t: Transcendentals)
    requires t.tan(t.atan(k)) == k
    ensures WarpedK(k, ReferenceRate, t) == k
  {
    assert t.atan(k) * ReferenceRate as real / ReferenceRate as real == t.atan(k);
  }

  /** `pr` is the prototype the source derives from the design (a, b), with an
      exact square root for k. */
  ghost predicate PrototypeOf(a: Triple, b: Triple, pr: Prototype)
  {
    var m := a[2] - a[1] + 1.0;
    var p := a[1] + a[2] + 1.0;
    && m != 0.0 && p != 0.0 && a[2] != 1.0
    && pr.k * pr.k == p / m
    && pr.q == pr.k / ((2.0 - 2.0 * a[2]) / m)
    && pr.vB == (b[0] - b[2]) / (1.0 - a[2])
    && pr.vH == (b[0] - b[1] + b[2]) / m
    && pr.vL == (b[0] + b[1] + b[2]) / p
  }

  /** The algebra behind the round trip. */
  lemma SynthesisAtOwnCorner(a: Triple, b: Triple, pr: Prototype)
    requires a[0] == 1.0
    requires PrototypeOf(a, b, pr)
    ensures FiniteFactor(pr, pr.k)
    ensures Numerator(pr, pr.k) == b
    ensures Denominator(pr, pr.k)[1] == a[1] && Denominator(pr, pr.k)[2] == a[2]
  {
    CornerFactor(a, b, pr);
    NumeratorAtOwnCorner(a, b, pr);
    DenominatorAtOwnCorner(a, b, pr);
  }

  lemma CornerFactor(a: Triple, b: Triple, pr: Prototype)
    requires PrototypeOf(a, b, pr)
    ensures var m := a[2] - a[1] + 1.0; var kq := (2.0 - 2.0 * a[2]) / m;
      && kq * m == 2.0 - 2.0 * a[2]
      && pr.k * pr.k * m == a[1] + a[2] + 1.0
      && FiniteFactor(pr, pr.k)
      && pr.k / pr.q == kq
      && pr.vB * pr.k / pr.q == pr.vB * kq
      && CommonFactor(pr, pr.k) == m / 4.0
  {
    var m := a[2] - a[1] + 1.0;
    var p := a[1] + a[2] + 1.0;
    var kq := (2.0 - 2.0 * a[2]) / m;
    QuotientTimesDivisor(2.0 - 2.0 * a[2], m);
    QuotientTimesDivisor(p, m);
    NonZeroQuotient(2.0 - 2.0 * a[2], m);
    NonZeroCorner(pr.k, m, p);
    QuotientOfQuotient(pr.k, kq, 1.0);
    QuotientOfQuotient(pr.k, kq, pr.vB);
    DenominatorAlgebra(a[1], a[2], m, p, kq, pr.k * pr.k);
    ReciprocalOfProduct(1.0 + kq + pr.k * pr.k, m);
  }

  lemma NonZeroCorner(k: real, m: real, p: real)
    requires m != 0.0 && p != 0.0 && k * k == p / m
    ensures k != 0.0
  {
    if k == 0.0 {
      QuotientTimesDivisor(p, m);
    }
  }

  lemma ReciprocalOfProduct(d: real, m: real)
    requires d * m == 4.0
    ensures d != 0.0 && 1.0 / d == m / 4.0
  {
  }

  lemma NumeratorAtOwnCorner(a: Triple, b: Triple, pr: Prototype)
    requires PrototypeOf(a, b, pr)
    ensures FiniteFactor(pr, pr.k) && Numerator(pr, pr.k) == b
  {
    var m := a[2] - a[1] + 1.0;
    var kq := (2.0 - 2.0 * a[2]) / m;
    CornerFactor(a, b, pr);
    assert pr.vB * kq * m == 2.0 * (b[0] - b[2]) && pr.vH * m == b[0] - b[1] + b[2]
        && pr.vL * pr.k * pr.k * m == b[0] + b[1] + b[2] by {
      GainsAsProducts(a, b, pr);
      Associate(pr.vB, kq, m);
      Associate(pr.vL * pr.k, pr.k, m);
      Associate(pr.vL, pr.k, pr.k * m);
      Associate(pr.k, pr.k, m);
    }
    NumeratorFromProducts(pr, b, m, kq);
  }

  lemma NumeratorFromProducts(pr: Prototype, b: Triple, m: real, kq: real)
    requires FiniteFactor(pr, pr.k) && CommonFactor(pr, pr.k) == m / 4.0
    requires pr.vB * pr.k / pr.q == pr.vB * kq
    requires pr.vB * kq * m == 2.0 * (b[0] - b[2])
    requires pr.vH * m == b[0] - b[1] + b[2]
    requires pr.vL * pr.k * pr.k * m == b[0] + b[1] + b[2]
    ensures Numerator(pr, pr.k) == b
  {
    NumeratorAtCorner(pr, m, kq);
    NumeratorAlgebra(b[0], b[1], b[2], m, pr.vB * kq, pr.vH, pr.vL * pr.k * pr.k);
    assert b == [b[0], b[1], b[2]];
  }

  lemma NumeratorAtCorner(pr: Prototype, m: real, kq: real)
    requires FiniteFactor(pr, pr.k) && CommonFactor(pr, pr.k) == m / 4.0
    requires pr.vB * pr.k / pr.q == pr.vB * kq
    ensures Numerator(pr, pr.k) == Synthesis(pr.vH, pr.vB * kq, pr.vL * pr.k * pr.k, m / 4.0)
  {
    var n := Numerator(pr, pr.k);
    var s := Synthesis(pr.vH, pr.vB * kq, pr.vL * pr.k * pr.k, m / 4.0);
    assert n[0] == s[0];
    assert n[1] == s[1];
    assert n[2] == s[2];
  }

  lemma Associate(x: real, y: real, z: real)
    ensures x * y * z == x * (y * z)
  {
  }

  lemma GainsAsProducts(a: Triple, b: Triple, pr: Prototype)
    requires PrototypeOf(a, b, pr)
    ensures pr.vB * (1.0 - a[2]) == b[0] - b[2]
    ensures pr.vH * (a[2] - a[1] + 1.0) == b[0] - b[1] + b[2]
    ensures pr.vL * (a[1] + a[2] + 1.0) == b[0] + b[1] + b[2]
  {
    QuotientTimesDivisor(b[0] - b[2], 1.0 - a[2]);
    QuotientTimesDivisor(b[0] - b[1] + b[2], a[2] - a[1] + 1.0);
    QuotientTimesDivisor(b[0] + b[1] + b[2], a[1] + a[2] + 1.0);
  }

  lemma DenominatorAtOwnCorner(a: Triple, b: Triple, pr: Prototype)
    requires PrototypeOf(a, b, pr)
    ensures FiniteFactor(pr, pr.k)
    ensures Denominator(pr, pr.k)[1] == a[1] && Denominator(pr, pr.k)[2] == a[2]
  {
    var m := a[2] - a[1] + 1.0;
    var p := a[1] + a[2] + 1.0;
    var kq := (2.0 - 2.0 * a[2]) / m;
    var kk := pr.k * pr.k;
    CornerFactor(a, b, pr);
    var den := Denominator(pr, pr.k);
    assert den[1] == 2.0 * (kk - 1.0) * (m / 4.0);
    assert den[2] == (1.0 - kq + kk) * (m / 4.0);
    DenominatorAlgebra(a[1], a[2], m, p, kq, kk);
  }

  lemma QuotientTimesDivisor(x: real, y: real)
    requires y != 0.0
    ensures (x / y) * y == x
  {
  }

  /** Dividing c k by k / kq gives c kq. */
  lemma QuotientOfQuotient(k: real, kq: real, c: real)
    requires k != 0.0 && kq != 0.0
    ensures k / kq != 0.0 && c * k / (k / kq) == c * kq
  {
  }

  lemma DenominatorAlgebra(a1: real, a2: real, m: real, p: real, kq: real, kk: real)
    requires m == a2 - a1 + 1.0 && p == a1 + a2 + 1.0
    requires kq * m == 2.0 - 2.0 * a2 && kk * m == p
    ensures (1.0 + kq + kk) * m == 4.0
    ensures 2.0 * (kk - 1.0) * (m / 4.0) == a1
    ensures (1.0 - kq + kk) * (m / 4.0) == a2
  {
    assert (1.0 + kq + kk) * m == m + kq * m + kk * m;
    assert 2.0 * (kk - 1.0) * (m / 4.0) == (kk * m - m) / 2.0;
    assert (1.0 - kq + kk) * (m / 4.0) == (m - kq * m + kk * m) / 4.0;
  }

  lemma NumeratorAlgebra(b0: real, b1: real, b2: real, m: real, vBkq: real, vH: real, vLkk: real)
    requires vBkq * m == 2.0 * (b0 - b2)
    requires vH * m == b0 - b1 + b2
    requires vLkk * m == b0 + b1 + b2
    ensures Synthesis(vH, vBkq, vLkk, m / 4.0) == [b0, b1, b2]
  {
    assert (vH + vBkq + vLkk) * (m / 4.0) == (vH * m + vBkq * m + vLkk * m) / 4.0;
    assert 2.0 * (vLkk - vH) * (m / 4.0) == (vLkk * m - vH * m) / 2.0;
    assert (vH - vBkq + vLkk) * (m / 4.0) == (vH * m - vBkq * m + vLkk * m) / 4.0;
  }

  /** A stage constructed for `rate` from a 48 kHz design: the converted
      coefficients and zeroed histories. */
  function Construct(a: Triple, b: Triple, rate: int, t: Transcendentals): (r: Option<Filter>)
    ensures rate == ReferenceRate ==> r == Some(Filter(a, b, Zeros, Zeros))
    ensures r.Some? ==> r.value.x == Zeros && r.value.y == Zeros
    ensures r.Some? && rate != ReferenceRate ==> r.value.a[0] == 1.0
  {
    match ConvertToSampleRate(a, b, rate, t)
    case None => None
    case Some(ab) => Some(Fresh(ab.0, ab.1))
  }

  // ---------------------------------------------------------------------------
  // The difference equation
  // ---------------------------------------------------------------------------

  /** Sample `j` of `s`, reaching back into the history `h` (most recent first)
      for the three indices before the start. */
  function At(h: Triple, s: seq<real>, j: int): real
    requires -3 <= j < |s|
  {
    if j >= 0 then s[j] else h[-j - 1]
  }

  /** The difference equation for the newest sample of `input`, given the
      outputs `prev` already produced for the samples before it. */
  function NextOutput(f: Filter, input: seq<real>, prev: seq<real>): real
    requires |input| == |prev| + 1
  {
    var n := |prev|;
    Difference(f.a, f.b, input[n], At(f.x, input, n - 1), At(f.x, input, n - 2),
               At(f.y, prev, n - 1), At(f.y, prev, n - 2))
  }

  /** b0 v + b1 x1 + b2 x2 - a1 y1 - a2 y2. */
  function Difference(a: Triple, b: Triple, v: real, x1: real, x2: real, y1: real, y2: real): real
  {
    b[0] * v + b[1] * x1 + b[2] * x2 - a[1] * y1 - a[2] * y2
  }

  /** The output of stage `f` on `input`:
      out[n] = b0 in[n] + b1 in[n-1] + b2 in[n-2] - a1 out[n-1] - a2 out[n-2],
      with the samples before the start taken from the stage's histories. */
  function Response(f: Filter, input: seq<real>): (out: seq<real>)
    ensures |out| == |input|
    decreases |input|
  {
    if |input| == 0 then []
    else
      var prev := Response(f, input[..|input| - 1]);
      prev + [NextOutput(f, input, prev)]
  }

  /** The stage after it has consumed `input`: the histories hold the last
      three inputs and outputs, reaching back into the old histories. */
  function After(f: Filter, input: seq<real>): (g: Filter)
    ensures g.a == f.a && g.b == f.b
  {
    var out := Response(f, input);
    var n := |input|;
    f.(x := [At(f.x, input, n - 1), At(f.x, input, n - 2), At(f.x, input, n - 3)],
       y := [At(f.y, out, n - 1), At(f.y, out, n - 2), At(f.y, out, n - 3)])
  }

  /** One more sample: the output grows by one difference-equation value,
      which reads the old histories' two most recent entries, and both
      histories shift by one slot. */
  lemma AfterStep(f: Filter, s: seq<real>, v: real)
    ensures var h := After(f, s); var o := NextOutput(f, s + [v], Response(f, s));
      && Response(f, s + [v]) == Response(f, s) + [o]
      && o == Difference(f.a, f.b, v, h.x[0], h.x[1], h.y[0], h.y[1])
      && After(f, s + [v]).x == [v, h.x[0], h.x[1]]
      && After(f, s + [v]).y == [o, h.y[0], h.y[1]]
  {
    var s' := s + [v];
    assert s'[..|s'| - 1] == s;
    var prev := Response(f, s);
    var out := Response(f, s');
    assert out == prev + [NextOutput(f, s', prev)];
    var n := |s|;
    assert At(f.x, s', n - 1) == At(f.x, s, n - 1);
    assert At(f.x, s', n - 2) == At(f.x, s, n - 2);
    assert At(f.y, out, n - 1) == At(f.y, prev, n - 1);
    assert At(f.y, out, n - 2) == At(f.y, prev, n - 2);
  }

  /** The source's `process`: shifts both three-slot histories for each
      sample and writes one output per input, in order. Returns the outputs and
      the stage with its updated histories. */
  method Process(f: Filter, input: seq<real>) returns (output: seq<real>, g: Filter)
    ensures |output| == |input|
    ensures output == Response(f, input)
    ensures g == After(f, input)
  {
    var x, y := f.x, f.y;
    output := [];
    assert input[..0] == [];
    for i := 0 to |input|
      invariant output == Response(f, input[..i])
      invariant x == [At(f.x, input, i - 1), At(f.x, input, i - 2), At(f.x, input, i - 3)]
      invariant y == [At(f.y, output, i - 1), At(f.y, output, i - 2), At(f.y, output, i - 3)]
    {
      ghost var x', y' := x, y;
      x := x[2 := x[1]];
      x := x[1 := x[0]];
      x := x[0 := input[i]];
      y := y[2 := y[1]];
      y := y[1 := y[0]];
      y := y[0 := Difference(f.a, f.b, x[0], x[1], x[2], y[1], y[2])];
      assert x == [input[i], x'[0], x'[1]];
      assert y == [y[0], y'[0], y'[1]];
      ResponseStep(f, input, i);
      output := output + [y[0]];
    }
    assert input[..|input|] == input;
    g := f.(x := x, y := y);
  }

  /** One step of the loop: the output for `input[..i + 1]` extends the output
      for `input[..i]` by the difference equation applied to sample i. */
  lemma ResponseStep(f: Filter, input: seq<real>, i: int)
    requires 0 <= i < |input|
    ensures var prev := Response(f, input[..i]);
      Response(f, input[..i + 1]) == prev + [Difference(f.a, f.b, input[i], At(f.x, input, i - 1), At(f.x, input, i - 2),
                                                        At(f.y, prev, i - 1), At(f.y, prev, i - 2))]
  {
    var s := input[..i + 1];
    assert s[..i] == input[..i];
    assert At(f.x, s, i - 1) == At(f.x, input, i - 1);
    assert At(f.x, s, i - 2) == At(f.x, input, i - 2);
  }

  /** Each output sample satisfies the difference equation. */
  lemma ResponseRecurrence(f: Filter, input: seq<real>, n: int)
    requires 0 <= n < |input|
    ensures var out := Response(f, input);
      out[n] == Difference(f.a, f.b, input[n], At(f.x, input, n - 1), At(f.x, input, n - 2),
                           At(f.y, out, n - 1), At(f.y, out, n - 2))
  {
    var out := Response(f, input);
    var pre := input[..n + 1];
    ResponsePrefix(f, input, n + 1);
    ResponsePrefix(f, input, n);
    assert pre[..n] == input[..n];
    assert out[..n + 1] == Response(f, pre) == out[..n] + [NextOutput(f, pre, out[..n])];
    assert out[n] == NextOutput(f, pre, out[..n]);
    assert At(f.x, pre, n - 1) == At(f.x, input, n - 1);
    assert At(f.x, pre, n - 2) == At(f.x, input, n - 2);
    assert At(f.y, out[..n], n - 1) == At(f.y, out, n - 1);
    assert At(f.y, out[..n], n - 2) == At(f.y, out, n - 2);
  }

  /** Causality: the first k outputs depend only on the first k inputs. */
  lemma ResponsePrefix(f: Filter, input: seq<real>, k: int)
    requires 0 <= k <= |input|
    ensures Response(f, input)[..k] == Response(f, input[..k])
  {
    assert input == input[..k] + input[k..];
    Continuation(f, input[..k], input[k..]);
  }

  /** The histories carry over between calls: processing `s` and then `t`
      on one stage gives the outputs of processing `s + t` once, and leaves
      the stage in the same state. */
  lemma {:induction false} Continuation(f: Filter, s: seq<real>, t: seq<real>)
    ensures Response(f, s + t) == Response(f, s) + Response(After(f, s), t)
    ensures After(f, s + t) == After(After(f, s), t)
    decreases |t|
  {
    var g := After(f, s);
    if |t| == 0 {
      assert s + t == s;
      assert After(g, t) == g;
    } else {
      var n := |t| - 1;
      var t', v := t[..n], t[n];
      assert t == t' + [v];
      assert s + t == (s + t') + [v];
      Continuation(f, s, t');
      AfterStep(f, s + t', v);
      AfterStep(g, t', v);
      var h := After(g, t');
      var o := Difference(f.a, f.b, v, h.x[0], h.x[1], h.y[0], h.y[1]);
      calc {
        Response(f, s + t);
        Response(f, s + t') + [o];
        (Response(f, s) + Response(g, t')) + [o];
        Response(f, s) + (Response(g, t') + [o]);
        Response(f, s) + Response(g, t);
      }
    }
  }

  /** `process` never reads a[0]: the output is the same whatever it holds. */
  lemma {:induction false} ResponseIgnoresLeadingDenominator(f: Filter, input: seq<real>, v: real)
    ensures Response(f.(a := f.a[0 := v]), input) == Response(f, input)
    decreases |input|
  {
    if |input| > 0 {
      var f' := f.(a := f.a[0 := v]);
      var prev := Response(f, input[..|input| - 1]);
      ResponseIgnoresLeadingDenominator(f, input[..|input| - 1], v);
      assert f'.a[1] == f.a[1] && f'.a[2] == f.a[2];
      assert NextOutput(f', input, prev) == NextOutput(f, input, prev);
    }
  }

  /** A stage with zero histories maps silence to silence. */
  lemma {:induction false} SilenceInSilenceOut(f: Filter, input: seq<real>)
    requires f.x == Zeros && f.y == Zeros
    requires forall i :: 0 <= i < |input| ==> input[i] == 0.0
    ensures forall i :: 0 <= i < |input| ==> Response(f, input)[i] == 0.0
    decreases |input|
  {
    if |input| > 0 {
      var n := |input| - 1;
      SilenceInSilenceOut(f, input[..n]);
      var prev := Response(f, input[..n]);
      assert At(f.y, prev, n - 1) == 0.0 && At(f.y, prev, n - 2) == 0.0;
      assert At(f.x, input, n - 1) == 0.0 && At(f.x, input, n - 2) == 0.0;
    }
  }

  /** The impulse response of a fresh stage for the first five samples:
      h0 = b0, h1 = b1 - a1 h0, h2 = b2 - a1 h1 - a2 h0, then
      h[n] = -a1 h[n-1] - a2 h[n-2]. */
  lemma ImpulseResponse(a: Triple, b: Triple)
    ensures var h := Response(Fresh(a, b), [1.0, 0.0, 0.0, 0.0, 0.0]);
      && h[0] == b[0]
      && h[1] == b[1] - a[1] * h[0]
      && h[2] == b[2] - a[1] * h[1] - a[2] * h[0]
      && h[3] == -a[1] * h[2] - a[2] * h[1]
      && h[4] == -a[1] * h[3] - a[2] * h[2]
  {
    var input := [1.0, 0.0, 0.0, 0.0, 0.0];
    forall n | 0 <= n < 5 {
      ResponseRecurrence(Fresh(a, b), input, n);
    }
  }
}
