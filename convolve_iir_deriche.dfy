/**
  The Deriche coefficients of `src/convolve_iir_deriche.cxx` (Deriche, "Recursively
  implementing the Gaussian and its derivatives", INRIA research report RR-1893, equations
  31 to 46).

  A fourth-order Deriche filter is given by four complex weights alpha_k and four complex
  rates lambda_k, tabulated for unit sigma. Scaling the rates by sigma gives the poles
  beta_k; the recursive filter's denominator is the polynomial prod_k (1 + beta_k z) and its
  numerator is sum_k alpha_k prod_{m != k} (1 + beta_m z). `compute_coefs` expands both
  products in place, one linear factor at a time, and reads off the real parts.

  Complex numbers are pairs of reals. `exp`, `cos` and `sin` are the uninterpreted functions
  of `Numerics.Libm`; the single-precision rounding of the stored coefficients is not modelled.
*/
module ConvolveIirDeriche {
  import opened Numerics
  import opened Wrappers
  import I = ConvolveIir

  // ---------------------------------------------------------------------------------------
  // Complex numbers
  // ---------------------------------------------------------------------------------------

  /** A `std::complex<double>`. */
  datatype Complex = Complex(re: real, im: real)

  const Zero: Complex := Complex(0.0, 0.0)
  const One: Complex := Complex(1.0, 0.0)

  function Add(p: Complex, q: Complex): Complex
  {
    Complex(p.re + q.re, p.im + q.im)
  }

  function Mul(p: Complex, q: Complex): Complex
  {
    Complex(p.re * q.re - p.im * q.im, p.re * q.im + p.im * q.re)
  }

  function Conj(p: Complex): Complex
  {
    Complex(p.re, -p.im)
  }

  /** A complex number divided by a `double`, as `std::complex` does it: both parts. */
  function Scaled(p: Complex, s: real): Complex
  {
    Complex(Div(p.re, s), Div(p.im, s))
  }

  lemma MulComm(p: Complex, q: Complex)
    ensures Mul(p, q) == Mul(q, p)
  {
  }

  lemma MulAssoc(p: Complex, q: Complex, r: Complex)
    ensures Mul(Mul(p, q), r) == Mul(p, Mul(q, r))
  {
  }

  /** Real distributivity, the step the complex one below is made of. */
  lemma Distrib(a: real, b: real, c: real)
    ensures a * (b + c) == a * b + a * c
    ensures (b + c) * a == b * a + c * a
  {
  }

  lemma MulAdd(p: Complex, q: Complex, r: Complex)
    ensures Mul(p, Add(q, r)) == Add(Mul(p, q), Mul(p, r))
    ensures Mul(Add(q, r), p) == Add(Mul(q, p), Mul(r, p))
  {
    Distrib(p.re, q.re, r.re);
    Distrib(p.im, q.im, r.im);
    Distrib(p.re, q.im, r.im);
    Distrib(p.im, q.re, r.re);
  }

  // ---------------------------------------------------------------------------------------
  // The precomputed weights and rates
  // ---------------------------------------------------------------------------------------

  /** `DerichePrecomputed`: the weights alpha0..alpha3 and the rates lambda0..lambda3. */
  datatype Precomputed = Precomputed(alpha0: Complex, alpha1: Complex, alpha2: Complex, alpha3: Complex,
                                     lambda0: Complex, lambda1: Complex, lambda2: Complex, lambda3: Complex)

  /**
    The eight-argument constructor: two conjugate pairs of weights, whose real sums are a0
    and a2, and two conjugate pairs of rates with real parts l0 and l2.
  */
  function FromEight(a0: real, a1: real, a2: real, a3: real, l0: real, l1: real, l2: real, l3: real)
    : (p: Precomputed)
    ensures p.alpha1 == Conj(p.alpha0) && p.alpha3 == Conj(p.alpha2)
    ensures p.lambda1 == Conj(p.lambda0) && p.lambda3 == Conj(p.lambda2)
    ensures Add(p.alpha0, p.alpha1) == Complex(a0, 0.0) && Add(p.alpha2, p.alpha3) == Complex(a2, 0.0)
    ensures p.alpha0.im * 2.0 == a1 && p.alpha2.im * 2.0 == a3
    ensures p.lambda0 == Complex(l0, l1) && p.lambda2 == Complex(l2, l3)
  {
    Precomputed(Complex(a0 / 2.0, a1 / 2.0), Complex(a0 / 2.0, -a1 / 2.0),
                Complex(a2 / 2.0, a3 / 2.0), Complex(a2 / 2.0, -a3 / 2.0),
                Complex(l0, l1), Complex(l0, -l1), Complex(l2, l3), Complex(l2, -l3))
  }

  /**
    The six-argument constructor: one conjugate pair of weights and rates, and a real weight
    a2 and a real rate l2 appearing twice (not halved).
  */
  function FromSix(a0: real, a1: real, a2: real, l0: real, l1: real, l2: real): (p: Precomputed)
    ensures p.alpha1 == Conj(p.alpha0) && p.lambda1 == Conj(p.lambda0)
    ensures Add(p.alpha0, p.alpha1) == Complex(a0, 0.0) && p.alpha0.im * 2.0 == a1
    ensures p.alpha2 == p.alpha3 == Complex(a2, 0.0) && p.lambda2 == p.lambda3 == Complex(l2, 0.0)
    ensures p.lambda0 == Complex(l0, l1)
  {
    Precomputed(Complex(a0 / 2.0, a1 / 2.0), Complex(a0 / 2.0, -a1 / 2.0), Complex(a2, 0.0), Complex(a2, 0.0),
                Complex(l0, l1), Complex(l0, -l1), Complex(l2, 0.0), Complex(l2, 0.0))
  }

  /** The four-argument constructor: one conjugate pair; the last two weights and rates are 0. */
  function FromFour(a0: real, a1: real, l0: real, l1: real): (p: Precomputed)
    ensures p.alpha1 == Conj(p.alpha0) && p.lambda1 == Conj(p.lambda0)
    ensures Add(p.alpha0, p.alpha1) == Complex(a0, 0.0) && p.alpha0.im * 2.0 == a1
    ensures p.alpha2 == p.alpha3 == p.lambda2 == p.lambda3 == Zero
    ensures p.lambda0 == Complex(l0, l1)
  {
    Precomputed(Complex(a0 / 2.0, a1 / 2.0), Complex(a0 / 2.0, -a1 / 2.0), Zero, Zero,
                Complex(l0, l1), Complex(l0, -l1), Zero, Zero)
  }

  /**
    `get_alpha`: weights 0..3; any other index is the assertion failure of the source (in a
    build without assertions it returns 0), modelled as `None`.
  */
  function GetAlpha(p: Precomputed, idx: nat): (r: Option<Complex>)
    ensures r.Some? <==> idx <= 3
    ensures idx == 1 && p.alpha1 == Conj(p.alpha0) ==> r.value == Conj(GetAlpha(p, 0).value)
  {
    match idx
    case 0 => Some(p.alpha0)
    case 1 => Some(p.alpha1)
    case 2 => Some(p.alpha2)
    case 3 => Some(p.alpha3)
    case _ => None
  }

  /** `get_lambda`, in the same way. */
  function GetLambda(p: Precomputed, idx: nat): (r: Option<Complex>)
    ensures r.Some? <==> idx <= 3
    ensures idx == 1 && p.lambda1 == Conj(p.lambda0) ==> r.value == Conj(GetLambda(p, 0).value)
  {
    match idx
    case 0 => Some(p.lambda0)
    case 1 => Some(p.lambda1)
    case 2 => Some(p.lambda2)
    case 3 => Some(p.lambda3)
    case _ => None
  }

  /** `deriche_precomputed_coefs`: smoothing, first derivative, second derivative. */
  const Table: seq<Precomputed> := [
    FromEight(1.6797292232361107, 3.7348298269103580, -0.6802783501806897, -0.2598300478959625,
              1.7831906544515104, 0.6318113174569493, 1.7228297663338028, 1.9969276832487770),
    FromEight(0.6494024008440620, 0.9557370760729773, -0.6472105276644291, -4.5306923044570760,
              1.5159726670750566, 2.0718953658782650, 1.5267608734791140, 0.6719055957689513),
    FromEight(0.3224570510072559, -1.7382843963561239, -1.3312275593739595, 3.6607035671974897,
              1.3138054926516880, 2.1656041357418863, 1.2402181393295362, 0.7479888745408682)]

  /** The four weights of an entry, in index order. */
  function Alphas(p: Precomputed): (r: seq<Complex>)
    ensures |r| == 4 && forall i | 0 <= i < 4 :: GetAlpha(p, i) == Some(r[i])
  {
    [p.alpha0, p.alpha1, p.alpha2, p.alpha3]
  }

  /** Pole k: `-exp(-Re l) cos(Im l) + i exp(-Re l) sin(Im l)` of the rate l = lambda_k / sigma. */
  function Beta(l: Complex, m: Libm): Complex
  {
    Complex(-m.exp(-l.re) * m.cos(l.im), m.exp(-l.re) * m.sin(l.im))
  }

  /** The four poles of an entry at a given sigma, in index order. */
  function Betas(p: Precomputed, sigma: real, m: Libm): (r: seq<Complex>)
    ensures |r| == 4 && forall i | 0 <= i < 4 :: r[i] == Beta(Scaled(GetLambda(p, i).value, sigma), m)
  {
    [Beta(Scaled(p.lambda0, sigma), m), Beta(Scaled(p.lambda1, sigma), m),
     Beta(Scaled(p.lambda2, sigma), m), Beta(Scaled(p.lambda3, sigma), m)]
  }

  /**
    Every tabulated entry has conjugate pairs of weights and rates, and its four weights sum
    to the real number a0 + a2 of its constructor call.
  */
  lemma TableConjugate(order: nat)
    requires order < |Table|
    ensures |Table| == 3
    ensures var p := Table[order];
            p.alpha1 == Conj(p.alpha0) && p.alpha3 == Conj(p.alpha2) &&
            p.lambda1 == Conj(p.lambda0) && p.lambda3 == Conj(p.lambda2)
    ensures SumTo(Alphas(Table[order]), 4).im == 0.0
  {
    var p := Table[order];
    assert Add(p.alpha0, p.alpha1).im == 0.0 && Add(p.alpha2, p.alpha3).im == 0.0;
  }

  // ---------------------------------------------------------------------------------------
  // Polynomials with complex coefficients
  // ---------------------------------------------------------------------------------------

  /** The value at z of the polynomial with coefficients p (p[j] multiplies z^j), by Horner. */
  function Eval(p: seq<Complex>, z: Complex): Complex
  {
    if |p| == 0 then Zero else Add(p[0], Mul(z, Eval(p[1..], z)))
  }

  /** The linear factor 1 + beta z. */
  function Linear(beta: Complex, z: Complex): Complex
  {
    Add(One, Mul(beta, z))
  }

  /**
    The coefficients of p times (1 + beta z), as the in-place loops of the source compute them:
    coefficient 0 kept, each middle coefficient j increased by beta times coefficient j - 1,
    and a new top coefficient beta times the old top one.
  */
  function TimesLinear(p: seq<Complex>, beta: Complex): (q: seq<Complex>)
    ensures |q| == |p| + 1
  {
    seq(|p| + 1, j => TimesLinearCoef(p, beta, j))
  }

  /** Coefficient j of p times (1 + beta z); 0 outside 0..|p|. */
  function TimesLinearCoef(p: seq<Complex>, beta: Complex, j: int): Complex
  {
    if 0 < j < |p| then Add(p[j], Mul(beta, p[j - 1]))
    else if 0 < j == |p| then Mul(beta, p[j - 1])
    else if j == 0 && |p| > 0 then p[0]
    else Zero
  }

  /** Coefficient-wise sum of two polynomials of the same length. */
  function PolyAdd(p: seq<Complex>, q: seq<Complex>): (r: seq<Complex>)
    requires |p| == |q|
    ensures |r| == |p|
  {
    seq(|p|, j => if 0 <= j < |p| then Add(p[j], q[j]) else Zero)
  }

  /** A polynomial times the constant c. */
  function PolyScale(c: Complex, p: seq<Complex>): (r: seq<Complex>)
    ensures |r| == |p|
  {
    seq(|p|, j => if 0 <= j < |p| then Mul(c, p[j]) else Zero)
  }

  /** Raising the constant coefficient by c raises the value by c. */
  lemma EvalBumpHead(r: seq<Complex>, c: Complex, z: Complex)
    requires |r| >= 1
    ensures Eval(r[0 := Add(r[0], c)], z) == Add(Eval(r, z), c)
  {
    assert r[0 := Add(r[0], c)][1..] == r[1..];
  }

  /** The algebra of one Horner step of `EvalTimesLinear`. */
  lemma HornerStep(p0: Complex, e: Complex, b: Complex, z: Complex)
    ensures Add(p0, Mul(z, Add(Mul(e, Linear(b, z)), Mul(b, p0)))) == Mul(Add(p0, Mul(z, e)), Linear(b, z))
  {
  }

  /** The tail of p times (1 + beta z) is the tail of p times (1 + beta z), head raised. */
  lemma TimesLinearSplit(p: seq<Complex>, beta: Complex)
    requires |p| >= 2
    ensures TimesLinear(p, beta)[0] == p[0]
    ensures TimesLinear(p, beta)[1..] ==
      TimesLinear(p[1..], beta)[0 := Add(TimesLinear(p[1..], beta)[0], Mul(beta, p[0]))]
  {
    var q, q' := TimesLinear(p, beta), TimesLinear(p[1..], beta);
    assert q[1..] == q'[0 := Add(q'[0], Mul(beta, p[0]))];
  }

  /** Multiplying the coefficients by (1 + beta z) multiplies the value by 1 + beta z. */
  lemma {:induction false} EvalTimesLinear(p: seq<Complex>, beta: Complex, z: Complex)
    requires |p| >= 1
    ensures Eval(TimesLinear(p, beta), z) == Mul(Eval(p, z), Linear(beta, z))
    decreases |p|
  {
    var q := TimesLinear(p, beta);
    if |p| == 1 {
      assert q[1..][1..] == [];
      assert p[1..] == [];
      HornerStep(p[0], Zero, beta, z);
    } else {
      var t := p[1..];
      var q' := TimesLinear(t, beta);
      TimesLinearSplit(p, beta);
      EvalBumpHead(q', Mul(beta, p[0]), z);
      EvalTimesLinear(t, beta, z);
      HornerStep(p[0], Eval(t, z), beta, z);
    }
  }

  /** A coefficient-wise sum splits into its head and the sum of the tails. */
  lemma PolyAddSplit(p: seq<Complex>, q: seq<Complex>)
    requires |p| == |q| > 0
    ensures PolyAdd(p, q)[0] == Add(p[0], q[0])
    ensures PolyAdd(p, q)[1..] == PolyAdd(p[1..], q[1..])
  {
    assert PolyAdd(p, q)[1..] == PolyAdd(p[1..], q[1..]);
  }

  /** The value of a coefficient-wise sum is the sum of the values. */
  lemma {:induction false} EvalAdd(p: seq<Complex>, q: seq<Complex>, z: Complex)
    requires |p| == |q|
    ensures Eval(PolyAdd(p, q), z) == Add(Eval(p, z), Eval(q, z))
    decreases |p|
  {
    if |p| > 0 {
      var r := PolyAdd(p, q);
      PolyAddSplit(p, q);
      var ep, eq := Eval(p[1..], z), Eval(q[1..], z);
      EvalAdd(p[1..], q[1..], z);
      assert Eval(r, z) == Add(Add(p[0], q[0]), Mul(z, Add(ep, eq)));
      MulAdd(z, ep, eq);
    }
  }

  /** The value of a scaled polynomial is the scaled value. */
  lemma {:induction false} EvalScale(c: Complex, p: seq<Complex>, z: Complex)
    ensures Eval(PolyScale(c, p), z) == Mul(c, Eval(p, z))
    decreases |p|
  {
    if |p| > 0 {
      assert PolyScale(c, p)[1..] == PolyScale(c, p[1..]);
      EvalScale(c, p[1..], z);
      MulAssoc(z, c, Eval(p[1..], z));
      MulComm(z, c);
      MulAssoc(c, z, Eval(p[1..], z));
      MulAdd(c, p[0], Mul(z, Eval(p[1..], z)));
    }
  }

  // ---------------------------------------------------------------------------------------
  // The two products of compute_coefs
  // ---------------------------------------------------------------------------------------

  /** The coefficients of prod_{k < m} (1 + beta_k z): `a` after step m - 1 of the source. */
  function DenomPoly(betas: seq<Complex>, m: nat): (r: seq<Complex>)
    requires m <= |betas|
    ensures |r| == m + 1
  {
    if m == 0 then [One] else TimesLinear(DenomPoly(betas, m - 1), betas[m - 1])
  }

  /**
    The coefficients of sum_{k < m} alpha_k prod_{i < m, i != k} (1 + beta_i z): `b` after step
    m - 1 of the source.
  */
  function NumerPoly(alphas: seq<Complex>, betas: seq<Complex>, m: nat): (r: seq<Complex>)
    requires 1 <= m <= |alphas| && m <= |betas|
    ensures |r| == m
  {
    if m == 1 then [alphas[0]]
    else PolyAdd(TimesLinear(NumerPoly(alphas, betas, m - 1), betas[m - 1]),
                 PolyScale(alphas[m - 1], DenomPoly(betas, m - 1)))
  }

  /** prod_{k < m} (1 + beta_k z). */
  function Prod(betas: seq<Complex>, m: nat, z: Complex): Complex
    requires m <= |betas|
  {
    if m == 0 then One else Mul(Prod(betas, m - 1, z), Linear(betas[m - 1], z))
  }

  /** prod_{i < m, i != k} (1 + beta_i z). */
  function ProdExcept(betas: seq<Complex>, m: nat, k: nat, z: Complex): Complex
    requires m <= |betas|
  {
    if m == 0 then One
    else if m - 1 == k then ProdExcept(betas, m - 1, k, z)
    else Mul(ProdExcept(betas, m - 1, k, z), Linear(betas[m - 1], z))
  }

  /** sum_{k < n} alpha_k prod_{i < m, i != k} (1 + beta_i z). */
  function Weighted(alphas: seq<Complex>, betas: seq<Complex>, m: nat, n: nat, z: Complex): Complex
    requires n <= |alphas| && m <= |betas|
  {
    if n == 0 then Zero else Add(Weighted(alphas, betas, m, n - 1, z), Mul(alphas[n - 1], ProdExcept(betas, m, n - 1, z)))
  }

  /** sum_{k < m} s_k. */
  function SumTo(s: seq<Complex>, m: nat): Complex
    requires m <= |s|
  {
    if m == 0 then Zero else Add(SumTo(s, m - 1), s[m - 1])
  }

  /** prod_{k < m} s_k. */
  function ProdTo(s: seq<Complex>, m: nat): Complex
    requires m <= |s|
  {
    if m == 0 then One else Mul(s[m - 1], ProdTo(s, m - 1))
  }

  /** The denominator coefficients are those of the product of the linear factors. */
  lemma {:induction false} DenomPolyValue(betas: seq<Complex>, m: nat, z: Complex)
    requires m <= |betas|
    ensures Eval(DenomPoly(betas, m), z) == Prod(betas, m, z)
  {
    if m == 0 {
      assert [One][1..] == [];
    } else {
      EvalTimesLinear(DenomPoly(betas, m - 1), betas[m - 1], z);
      DenomPolyValue(betas, m - 1, z);
    }
  }

  /** With the skipped index past the end, nothing is skipped. */
  lemma {:induction false} ProdExceptNone(betas: seq<Complex>, m: nat, k: nat, z: Complex)
    requires m <= |betas| && m <= k
    ensures ProdExcept(betas, m, k, z) == Prod(betas, m, z)
  {
    if m > 0 {
      ProdExceptNone(betas, m - 1, k, z);
    }
  }

  /** One more factor that no term skips multiplies every term of the sum. */
  lemma {:induction false} WeightedStep(alphas: seq<Complex>, betas: seq<Complex>, m: nat, n: nat, z: Complex)
    requires 1 <= m <= |betas| && n <= m - 1 && n <= |alphas|
    ensures Weighted(alphas, betas, m, n, z) == Mul(Weighted(alphas, betas, m - 1, n, z), Linear(betas[m - 1], z))
  {
    if n > 0 {
      WeightedStep(alphas, betas, m, n - 1, z);
      var f := Linear(betas[m - 1], z);
      MulAdd(f, Weighted(alphas, betas, m - 1, n - 1, z), Mul(alphas[n - 1], ProdExcept(betas, m - 1, n - 1, z)));
      MulAssoc(alphas[n - 1], ProdExcept(betas, m - 1, n - 1, z), f);
    }
  }

  /** The numerator coefficients are those of sum_k alpha_k prod_{i != k} (1 + beta_i z). */
  lemma {:induction false} NumerPolyValue(alphas: seq<Complex>, betas: seq<Complex>, m: nat, z: Complex)
    requires 1 <= m <= |alphas| && m <= |betas|
    ensures Eval(NumerPoly(alphas, betas, m), z) == Weighted(alphas, betas, m, m, z)
  {
    if m == 1 {
      assert [alphas[0]][1..] == [];
      assert ProdExcept(betas, 1, 0, z) == ProdExcept(betas, 0, 0, z) == One;
    } else {
      var t := TimesLinear(NumerPoly(alphas, betas, m - 1), betas[m - 1]);
      var s := PolyScale(alphas[m - 1], DenomPoly(betas, m - 1));
      EvalAdd(t, s, z);
      EvalTimesLinear(NumerPoly(alphas, betas, m - 1), betas[m - 1], z);
      NumerPolyValue(alphas, betas, m - 1, z);
      EvalScale(alphas[m - 1], DenomPoly(betas, m - 1), z);
      DenomPolyValue(betas, m - 1, z);
      WeightedStep(alphas, betas, m, m - 1, z);
      ProdExceptNone(betas, m - 1, m - 1, z);
    }
  }

  /** The constant coefficient of the denominator is 1. */
  lemma {:induction false} DenomPolyHead(betas: seq<Complex>, m: nat)
    requires m <= |betas|
    ensures DenomPoly(betas, m)[0] == One
  {
    if m > 0 {
      DenomPolyHead(betas, m - 1);
    }
  }

  /** The top coefficient of the denominator is the product of the poles. */
  lemma {:induction false} DenomPolyTop(betas: seq<Complex>, m: nat)
    requires m <= |betas|
    ensures DenomPoly(betas, m)[m] == ProdTo(betas, m)
  {
    if m > 0 {
      DenomPolyTop(betas, m - 1);
    }
  }

  /** The linear coefficient of the denominator is the sum of the poles. */
  lemma {:induction false} DenomPolyLinear(betas: seq<Complex>, m: nat)
    requires 1 <= m <= |betas|
    ensures DenomPoly(betas, m)[1] == SumTo(betas, m)
  {
    DenomPolyHead(betas, m - 1);
    if m > 1 {
      DenomPolyLinear(betas, m - 1);
    }
  }

  /** The constant coefficient of the numerator is the sum of the weights. */
  lemma {:induction false} NumerPolyHead(alphas: seq<Complex>, betas: seq<Complex>, m: nat)
    requires 1 <= m <= |alphas| && m <= |betas|
    ensures NumerPoly(alphas, betas, m)[0] == SumTo(alphas, m)
  {
    if m > 1 {
      NumerPolyHead(alphas, betas, m - 1);
      NumerPolyHeadStep(alphas, betas, m);
    }
  }

  /** The constant numerator coefficient after step m - 1 is the one before plus alpha_{m-1}. */
  lemma NumerPolyHeadStep(alphas: seq<Complex>, betas: seq<Complex>, m: nat)
    requires 2 <= m <= |alphas| && m <= |betas|
    ensures NumerPoly(alphas, betas, m)[0] == Add(NumerPoly(alphas, betas, m - 1)[0], alphas[m - 1])
  {
    DenomPolyHead(betas, m - 1);
    NumerHeadStep(NumerPoly(alphas, betas, m - 1), DenomPoly(betas, m - 1), alphas[m - 1], betas[m - 1]);
  }

  /** One step of the numerator leaves its constant coefficient raised by the new weight. */
  lemma NumerHeadStep(prev: seq<Complex>, den: seq<Complex>, a: Complex, beta: Complex)
    requires |prev| >= 1 && |den| == |prev| + 1 && den[0] == One
    ensures PolyAdd(TimesLinear(prev, beta), PolyScale(a, den))[0] == Add(prev[0], a)
  {
    assert TimesLinear(prev, beta)[0] == prev[0];
    assert PolyScale(a, den)[0] == Mul(a, One) == a;
  }

  // ---------------------------------------------------------------------------------------
  // The coefficients read off the two products
  // ---------------------------------------------------------------------------------------

  /** The real part of a polynomial with complex coefficients, at a real point. */
  function ReEval(p: seq<Complex>, x: real): real
  {
    if |p| == 0 then 0.0 else p[0].re + x * ReEval(p[1..], x)
  }

  /** At a real point, the real part of the value is the value of the real parts. */
  lemma {:induction false} EvalRe(p: seq<Complex>, x: real)
    ensures Eval(p, Complex(x, 0.0)).re == ReEval(p, x)
    decreases |p|
  {
    if |p| > 0 {
      EvalRe(p[1..], x);
    }
  }

  /** c0 + c1 x + c2 x^2 + c3 x^3, in Horner form. */
  function Horner4(c0: real, c1: real, c2: real, c3: real, x: real): real
  {
    c0 + x * (c1 + x * (c2 + x * c3))
  }

  /** The cubic with the four coefficients of a `Float4`. */
  function Poly4(c: I.Float4, x: real): real
  {
    Horner4(c.s0, c.s1, c.s2, c.s3, x)
  }

  /** The four real parts of a length-4 coefficient sequence, from index `from` on. */
  function RealParts(p: seq<Complex>, from: nat): (c: I.Float4)
    requires from + 4 <= |p|
    ensures c.s0 == p[from].re && c.s3 == p[from + 3].re
  {
    I.Float4(p[from].re, p[from + 1].re, p[from + 2].re, p[from + 3].re)
  }

  /** A four-term real polynomial divided by g, coefficient by coefficient. */
  function Divided(c: I.Float4, g: real): I.Float4
  {
    I.Float4(Div(c.s0, g), Div(c.s1, g), Div(c.s2, g), Div(c.s3, g))
  }

  /** `sign`: -1 for the antisymmetric first derivative (equation 32), else 1 (equation 31). */
  function Sign(order: nat): (s: real)
    ensures s == -1.0 <==> order == 1
    ensures s == 1.0 <==> order != 1
  {
    if order == 1 then -1.0 else 1.0
  }

  /** `M_SQRT2PI * pow(sigma, order + 1)`: the divisor of the causal numerator. */
  function Gain(sigma: real, order: nat): real
  {
    Sqrt2Pi * IntPow(sigma, order + 1)
  }

  /** Anticausal coefficient i < 3 of equations 31 and 32: s (n_{i+1} - n0 d_i). */
  function AntiTerm(s: real, next: real, n0: real, di: real): real
  {
    s * (next - n0 * di)
  }

  /** The last anticausal coefficient: s (-1) n0 d3. */
  function AntiTop(s: real, n0: real, d3: real): real
  {
    s * (-1.0) * n0 * d3
  }

  /** The anticausal numerator of equations 31 and 32. */
  function Anticausal(nc: I.Float4, d: I.Float4, s: real): I.Float4
  {
    I.Float4(AntiTerm(s, nc.s1, nc.s0, d.s0), AntiTerm(s, nc.s2, nc.s0, d.s1), AntiTerm(s, nc.s3, nc.s0, d.s2),
             AntiTop(s, nc.s0, d.s3))
  }

  /**
    The anticausal numerator na as a transfer function: x times it is s times the causal
    numerator nc less its constant term times the denominator 1 + d0 x + ... + d3 x^4.
  */
  predicate AnticausalRelation(na: I.Float4, nc: I.Float4, d: I.Float4, s: real, x: real)
  {
    x * Poly4(na, x) == s * (Poly4(nc, x) - nc.s0 * (1.0 + x * Poly4(d, x)))
  }

  /** The anticausal numerator of equations 31 and 32 satisfies that relation at every x. */
  lemma AnticausalNumerator(nc: I.Float4, d: I.Float4, s: real, x: real)
    ensures AnticausalRelation(Anticausal(nc, d, s), nc, d, s, x)
  {
    var na := Anticausal(nc, d, s);
    AnticausalCoefficients(nc.s0, nc.s1, nc.s2, nc.s3, d.s0, d.s1, d.s2, d.s3, na.s0, na.s1, na.s2, na.s3, s, x);
  }

  /** The relation for coefficients a0..a3 equal to those of equations 31 and 32. */
  lemma AnticausalCoefficients(n0: real, n1: real, n2: real, n3: real, d0: real, d1: real, d2: real, d3: real,
                               a0: real, a1: real, a2: real, a3: real, s: real, x: real)
    requires a0 == s * (n1 - n0 * d0) && a1 == s * (n2 - n0 * d1) && a2 == s * (n3 - n0 * d2)
    requires a3 == s * (-1.0) * n0 * d3
    ensures x * Horner4(a0, a1, a2, a3, x) == s * (Horner4(n0, n1, n2, n3, x) - n0 * (1.0 + x * Horner4(d0, d1, d2, d3, x)))
  {
    AnticausalAlgebra(n0, n1, n2, n3, d0, d1, d2, d3, s, x);
    RelationOfValues(x, s, n0, Horner4(a0, a1, a2, a3, x), Horner4(n0, n1, n2, n3, x), Horner4(d0, d1, d2, d3, x),
      s * (n1 - n0 * d0) + x * (s * (n2 - n0 * d1) + x * (s * (n3 - n0 * d2) + x * (s * (-1.0) * n0 * d3))),
      n0 + x * (n1 + x * (n2 + x * n3)), d0 + x * (d1 + x * (d2 + x * d3)));
  }

  /** The anticausal relation carries over to equal values of the three cubics. */
  lemma RelationOfValues(x: real, s: real, n0: real, a: real, n: real, d: real, a': real, n': real, d': real)
    requires a == a' && n == n' && d == d'
    requires x * a' == s * (n' - n0 * (1.0 + x * d'))
    ensures x * a == s * (n - n0 * (1.0 + x * d))
  {
  }

  /** `AnticausalNumerator` on the eight coefficients, one Horner step at a time. */
  lemma AnticausalAlgebra(n0: real, n1: real, n2: real, n3: real, d0: real, d1: real, d2: real, d3: real, s: real, x: real)
    ensures x * (s * (n1 - n0 * d0) + x * (s * (n2 - n0 * d1) + x * (s * (n3 - n0 * d2) + x * (s * (-1.0) * n0 * d3))))
         == s * ((n0 + x * (n1 + x * (n2 + x * n3))) - n0 * (1.0 + x * (d0 + x * (d1 + x * (d2 + x * d3)))))
  {
    var r1, r2, r3 := n1 + x * (n2 + x * n3), n2 + x * n3, n3;
    var t1, t2, t3 := d0 + x * (d1 + x * (d2 + x * d3)), d1 + x * (d2 + x * d3), d2 + x * d3;
    var q3 := 0.0 - n0 * d3;
    var q2 := (n3 - n0 * d2) + x * q3;
    var q1 := (n2 - n0 * d1) + x * q2;
    var q0 := (n1 - n0 * d0) + x * q1;
    HornerSub(n3, 0.0, n0, d2, d3, x);
    assert r3 - n0 * t3 == q2;
    HornerSub(n2, r3, n0, d1, t3, x);
    MulLeft(x, r3 - n0 * t3, q2);
    assert r2 - n0 * t2 == q1;
    HornerSub(n1, r2, n0, d0, t2, x);
    MulLeft(x, r2 - n0 * t2, q1);
    assert r1 - n0 * t1 == q0;
    HornerSub(n0, r1, n0, 1.0, t1, x);
    MulLeft(x, r1 - n0 * t1, q0);
    assert (n0 + x * r1) - n0 * (1.0 + x * t1) == x * q0;
    ScaleStep(s, n3 - n0 * d2, q3, x);
    MulLeft(x, s * q2, s * (n3 - n0 * d2) + x * (s * q3));
    ScaleStep(s, n2 - n0 * d1, q2, x);
    MulLeft(x, s * q1, s * (n2 - n0 * d1) + x * (s * q2));
    ScaleStep(s, n1 - n0 * d0, q1, x);
    assert s * (-1.0) * n0 * d3 == s * q3;
    assert s * (x * q0) == x * (s * q0);
  }

  /** Equal factors give equal products. */
  lemma MulLeft(x: real, a: real, b: real)
    requires a == b
    ensures x * a == x * b
  {
  }

  /** One Horner step of a difference: (a + x r) - c (b + x t) = (a - c b) + x (r - c t). */
  lemma HornerSub(a: real, r: real, c: real, b: real, t: real, x: real)
    ensures (a + x * r) - c * (b + x * t) == (a - c * b) + x * (r - c * t)
  {
    assert c * (b + x * t) == c * b + x * (c * t);
  }

  /** One Horner step of a scaling: s (a + x r) = s a + x (s r). */
  lemma ScaleStep(s: real, a: real, r: real, x: real)
    ensures s * (a + x * r) == s * a + x * (s * r)
  {
  }

  /** The three coefficient sets `compute_coefs` writes. */
  datatype Coefs = Coefs(nCausal: I.Float4, nAnticausal: I.Float4, d: I.Float4)

  /** The message of the `invalid_argument` thrown for an order above 2. */
  const OrderError: string := "Order must be 0, 1 or 2."

  /** What `compute_coefs(sigma, order)` writes, or the exception it throws. */
  function Deriche(sigma: real, order: nat, m: Libm): (r: Result<Coefs, string>)
    ensures r.Err? <==> order > 2
    ensures r.Err? ==> r.error == OrderError
  {
    if order > 2 then Err(OrderError)
    else
      var al, be := Alphas(Table[order]), Betas(Table[order], sigma, m);
      Ok(Readout(NumerPoly(al, be, 4), DenomPoly(be, 4), Gain(sigma, order), Sign(order)))
  }

  /**
    The coefficients read off the expanded numerator b and denominator a: the real parts of
    b divided by the gain g, the real parts of a past its constant term, and the anticausal
    numerator for the sign s.
  */
  function Readout(b: seq<Complex>, a: seq<Complex>, g: real, s: real): Coefs
    requires |b| == 4 && |a| == 5
  {
    var nc := Divided(RealParts(b, 0), g);
    var d := RealParts(a, 1);
    Coefs(nc, Anticausal(nc, d, s), d)
  }

  /** A five-term real-part polynomial: the constant term and x times the other four. */
  lemma ReEvalFive(p: seq<Complex>, x: real)
    requires |p| == 5
    ensures ReEval(p, x) == p[0].re + x * Poly4(RealParts(p, 1), x)
  {
    assert p[1..][1..] == p[2..] && p[2..][1..] == p[3..] && p[3..][1..] == p[4..];
    assert p[4..][1..] == [];
    assert ReEval(p[4..], x) == p[4].re;
    assert ReEval(p[3..], x) == p[3].re + x * p[4].re;
    assert ReEval(p[2..], x) == p[2].re + x * (p[3].re + x * p[4].re);
  }

  /** A four-term real-part polynomial. */
  lemma ReEvalFour(p: seq<Complex>, x: real)
    requires |p| == 4
    ensures ReEval(p, x) == Poly4(RealParts(p, 0), x)
  {
    assert p[1..][1..] == p[2..] && p[2..][1..] == p[3..];
    assert p[3..][1..] == [];
    assert ReEval(p[3..], x) == p[3].re;
    assert ReEval(p[2..], x) == p[2].re + x * p[3].re;
    assert ReEval(p[1..], x) == p[1].re + x * (p[2].re + x * p[3].re);
  }

  /** Dividing every coefficient by a nonzero g divides the value by g. */
  lemma DividedValue(c: I.Float4, q: I.Float4, g: real, x: real)
    requires g != 0.0 && q == Divided(c, g)
    ensures g * Poly4(q, x) == Poly4(c, x)
  {
    assert g * q.s0 == c.s0 && g * q.s1 == c.s1 && g * q.s2 == c.s2 && g * q.s3 == c.s3;
    assert g * Poly4(q, x) == g * q.s0 + x * (g * q.s1 + x * (g * q.s2 + x * (g * q.s3)));
  }

  /** `Deriche` for an order of the table, in terms of the two expanded products. */
  lemma DericheReadout(sigma: real, order: nat, m: Libm)
    requires order <= 2
    ensures var al, be := Alphas(Table[order]), Betas(Table[order], sigma, m);
            Deriche(sigma, order, m) ==
            Ok(Readout(NumerPoly(al, be, 4), DenomPoly(be, 4), Gain(sigma, order), Sign(order)))
  {
  }

  /** The denominator 1 + d0 x + ... + d3 x^4 is the real part of prod_k (1 + beta_k x). */
  predicate DenominatorRelation(d: I.Float4, be: seq<Complex>, x: real)
    requires |be| == 4
  {
    1.0 + x * Poly4(d, x) == Prod(be, 4, Complex(x, 0.0)).re
  }

  /**
    g times n0 + n1 x + n2 x^2 + n3 x^3 is the real part of sum_k alpha_k prod_{i != k} (1 + beta_i x),
    and g times n0 is the real part of the sum of the weights.
  */
  predicate NumeratorRelation(nc: I.Float4, g: real, al: seq<Complex>, be: seq<Complex>, x: real)
    requires |al| == 4 && |be| == 4
  {
    g * Poly4(nc, x) == Weighted(al, be, 4, 4, Complex(x, 0.0)).re && g * nc.s0 == SumTo(al, 4).re
  }

  /**
    The denominator of the recursive filter: for every real x it is the real part of the
    product of the four factors; d0 is the real part of the sum of the poles and d3 that of
    their product.
  */
  lemma DericheDenominator(sigma: real, order: nat, m: Libm, x: real)
    requires order <= 2
    ensures var be := Betas(Table[order], sigma, m);
            var c := Deriche(sigma, order, m).value;
            DenominatorRelation(c.d, be, x) && c.d.s0 == SumTo(be, 4).re && c.d.s3 == ProdTo(be, 4).re
  {
    var al, be := Alphas(Table[order]), Betas(Table[order], sigma, m);
    DericheReadout(sigma, order, m);
    var c := Readout(NumerPoly(al, be, 4), DenomPoly(be, 4), Gain(sigma, order), Sign(order));
    var a := DenomPoly(be, 4);
    assert c.d == RealParts(a, 1);
    DenomPolyValue(be, 4, Complex(x, 0.0));
    DenomPolyHead(be, 4);
    DenomPolyLinear(be, 4);
    DenomPolyTop(be, 4);
    ExpandedDenominator(a, be, x);
  }

  /** The value relation for any five coefficients with constant term 1 whose value is the product. */
  lemma ExpandedDenominator(a: seq<Complex>, be: seq<Complex>, x: real)
    requires |a| == 5 && |be| == 4 && a[0] == One
    requires Eval(a, Complex(x, 0.0)) == Prod(be, 4, Complex(x, 0.0))
    ensures DenominatorRelation(RealParts(a, 1), be, x)
  {
    RealValueFive(a, x);
  }

  /** At a real point, the real part of a five-term polynomial through its last four real parts. */
  lemma RealValueFive(p: seq<Complex>, x: real)
    requires |p| == 5
    ensures Eval(p, Complex(x, 0.0)).re == p[0].re + x * Poly4(RealParts(p, 1), x)
  {
    EvalRe(p, x);
    ReEvalFive(p, x);
  }

  /** At a real point, the real part of a four-term polynomial through its real parts. */
  lemma RealValueFour(p: seq<Complex>, x: real)
    requires |p| == 4
    ensures Eval(p, Complex(x, 0.0)).re == Poly4(RealParts(p, 0), x)
  {
    EvalRe(p, x);
    ReEvalFour(p, x);
  }

  /**
    The causal numerator: for every real x, the gain times it is the real part of the
    weighted sum of the partial products; the gain times n0 is the sum of the four weights,
    which is real.
  */
  lemma DericheNumerator(sigma: real, order: nat, m: Libm, x: real)
    requires order <= 2 && Gain(sigma, order) != 0.0
    ensures var al, be := Alphas(Table[order]), Betas(Table[order], sigma, m);
            var c := Deriche(sigma, order, m).value;
            NumeratorRelation(c.nCausal, Gain(sigma, order), al, be, x) && SumTo(al, 4).im == 0.0
  {
    var al, be := Alphas(Table[order]), Betas(Table[order], sigma, m);
    DericheReadout(sigma, order, m);
    var g := Gain(sigma, order);
    var c := Readout(NumerPoly(al, be, 4), DenomPoly(be, 4), g, Sign(order));
    var b := NumerPoly(al, be, 4);
    assert c.nCausal == Divided(RealParts(b, 0), g);
    NumerPolyValue(al, be, 4, Complex(x, 0.0));
    NumerPolyHead(al, be, 4);
    ExpandedNumerator(b, c.nCausal, al, be, g, x);
    TableConjugate(order);
  }

  /** The value relation for any four coefficients whose value is the weighted sum, and nonzero gain. */
  lemma ExpandedNumerator(b: seq<Complex>, nc: I.Float4, al: seq<Complex>, be: seq<Complex>, g: real, x: real)
    requires |b| == 4 && |al| == 4 && |be| == 4 && g != 0.0 && nc == Divided(RealParts(b, 0), g)
    requires Eval(b, Complex(x, 0.0)) == Weighted(al, be, 4, 4, Complex(x, 0.0)) && b[0] == SumTo(al, 4)
    ensures NumeratorRelation(nc, g, al, be, x)
  {
    NumeratorValue(b, nc, al, be, g, x);
    DividedHead(nc, g, b[0].re);
  }

  /** The value half of `ExpandedNumerator`. */
  lemma NumeratorValue(b: seq<Complex>, nc: I.Float4, al: seq<Complex>, be: seq<Complex>, g: real, x: real)
    requires |b| == 4 && |al| == 4 && |be| == 4 && g != 0.0 && nc == Divided(RealParts(b, 0), g)
    requires Eval(b, Complex(x, 0.0)) == Weighted(al, be, 4, 4, Complex(x, 0.0))
    ensures g * Poly4(nc, x) == Weighted(al, be, 4, 4, Complex(x, 0.0)).re
  {
    RealValueFour(b, x);
    DividedValue(RealParts(b, 0), nc, g, x);
  }

  /** Multiplying a constant coefficient divided by a nonzero g back by g. */
  lemma DividedHead(c: I.Float4, g: real, a: real)
    requires g != 0.0 && c.s0 == Div(a, g)
    ensures g * c.s0 == a
  {
  }

  /**
    The anticausal numerator of the result: x times it is sign times the causal numerator
    less n0 times the denominator, the condition of equations 31 (sign 1, symmetric impulse
    response) and 32 (sign -1, antisymmetric).
  */
  lemma DericheAnticausal(sigma: real, order: nat, m: Libm, x: real)
    requires order <= 2
    ensures var c := Deriche(sigma, order, m).value;
            AnticausalRelation(c.nAnticausal, c.nCausal, c.d, Sign(order), x)
  {
    var al, be := Alphas(Table[order]), Betas(Table[order], sigma, m);
    var c := Readout(NumerPoly(al, be, 4), DenomPoly(be, 4), Gain(sigma, order), Sign(order));
    DericheReadout(sigma, order, m);
    assert c.nAnticausal == Anticausal(c.nCausal, c.d, Sign(order));
    AnticausalNumerator(c.nCausal, c.d, Sign(order), x);
  }

  // ---------------------------------------------------------------------------------------
  // compute_coefs and the Coefficients constructor
  // ---------------------------------------------------------------------------------------

  /** Multiplying by one. */
  lemma MulOne(p: Complex)
    ensures Mul(p, One) == p
  {
  }

  /**
    One `b[j] += beta * b[j - 1]` sweep: the first len + 1 entries of x become the
    coefficients of (x[0] + ... + x[len - 1] z^(len - 1)) (1 + beta z); the sweep first writes the
    new top entry and then runs downwards, so each entry still reads its old predecessor.
  */
  method TimesLinearInPlace(x: array<Complex>, len: nat, beta: Complex)
    requires 1 <= len < x.Length
    modifies x
    ensures x[..len + 1] == TimesLinear(old(x[..len]), beta)
    ensures x[len + 1..] == old(x[len + 1..])
  {
    ghost var p := x[..len];
    x[len] := Mul(beta, x[len - 1]);
    var j := len - 1;
    while j > 0
      invariant 0 <= j <= len - 1
      invariant forall i | 0 <= i <= j :: x[i] == p[i]
      invariant forall i | j < i <= len :: x[i] == TimesLinearCoef(p, beta, i)
      invariant x[len + 1..] == old(x[len + 1..])
    {
      x[j] := Add(x[j], Mul(beta, x[j - 1]));
      j := j - 1;
    }
    assert forall i | 0 <= i <= len :: x[..len + 1][i] == TimesLinear(p, beta)[i];
  }

  /**
    One `b[j] += alpha * a[j]` sweep over the first len entries: x becomes x plus alpha times
    y there.
  */
  method AddScaledInPlace(x: array<Complex>, y: array<Complex>, len: nat, c: Complex)
    requires x != y && len <= x.Length && len <= y.Length
    modifies x
    ensures x[..len] == PolyAdd(old(x[..len]), PolyScale(c, y[..len]))
    ensures x[len..] == old(x[len..])
  {
    ghost var p := x[..len];
    for j := 0 to len
      invariant forall i | 0 <= i < j :: x[i] == Add(p[i], Mul(c, y[i]))
      invariant forall i | j <= i < len :: x[i] == p[i]
      invariant x[len..] == old(x[len..])
    {
      x[j] := Add(x[j], Mul(c, y[j]));
    }
    assert forall i | 0 <= i < len :: x[..len][i] == PolyAdd(p, PolyScale(c, y[..len]))[i];
  }

  /**
    `compute_coefs(sigma, order, ...)`: the weights and the poles of the entry for the order,
    the two products expanded one linear factor at a time into `b` and `a`, and the three
    coefficient sets read off them; an order above 2 is the `invalid_argument` exception.
  */
  method ComputeCoefs(sigma: real, order: nat, m: Libm) returns (r: Result<Coefs, string>)
    ensures r == Deriche(sigma, order, m)
  {
    if order > 2 {
      return Err(OrderError);
    }
    var alpha, beta := LoadPoles(Table[order], sigma, m);
    var b, a := Expand(alpha, beta);
    var g := Sqrt2Pi * IntPow(sigma, order + 1);
    var sign := 1.0;
    if order == 1 {
      sign := -1.0;
    }
    var c := ReadOff(b, a, g, sign);
    DericheOf(sigma, order, m, b[..], a[..], g, sign, c);
    r := Ok(c);
  }

  /** The pieces `compute_coefs` computes, put together, are `Deriche`. */
  lemma DericheOf(sigma: real, order: nat, m: Libm, b: seq<Complex>, a: seq<Complex>, g: real, sign: real, c: Coefs)
    requires order <= 2
    requires b == NumerPoly(Alphas(Table[order]), Betas(Table[order], sigma, m), 4)
    requires a == DenomPoly(Betas(Table[order], sigma, m), 4)
    requires g == Gain(sigma, order) && sign == Sign(order) && c == Readout(b, a, g, sign)
    ensures Deriche(sigma, order, m) == Ok(c)
  {
    DericheReadout(sigma, order, m);
  }

  /** The first loop of `compute_coefs`: the weights, the scaled rates and the poles. */
  method LoadPoles(p: Precomputed, sigma: real, m: Libm) returns (alpha: array<Complex>, beta: array<Complex>)
    ensures fresh(alpha) && fresh(beta)
    ensures alpha[..] == Alphas(p) && beta[..] == Betas(p, sigma, m)
  {
    ghost var al, be := Alphas(p), Betas(p, sigma, m);
    alpha := new Complex[4](_ => Zero);
    var lambda := new Complex[4](_ => Zero);
    beta := new Complex[4](_ => Zero);
    for i := 0 to 4
      invariant forall j | 0 <= j < i :: alpha[j] == al[j] && beta[j] == be[j]
    {
      alpha[i] := GetAlpha(p, i).value;
      lambda[i] := Scaled(GetLambda(p, i).value, sigma);
      beta[i] := Beta(lambda[i], m);
    }
  }

  /**
    The expansion loop of `compute_coefs`: step k multiplies b by the factor 1 + beta_k z,
    adds alpha_k times a, and then multiplies a by the same factor.
  */
  method Expand(alpha: array<Complex>, beta: array<Complex>) returns (b: array<Complex>, a: array<Complex>)
    requires alpha.Length == 4 && beta.Length == 4
    ensures fresh(b) && fresh(a)
    ensures b[..] == NumerPoly(alpha[..], beta[..], 4) && a[..] == DenomPoly(beta[..], 4)
  {
    ghost var al, be := alpha[..], beta[..];
    a := new Complex[5](_ => Zero);
    b := new Complex[4](_ => Zero);
    b[0] := alpha[0];
    a[0] := One;
    a[1] := beta[0];
    MulOne(be[0]);
    assert b[..1] == NumerPoly(al, be, 1);
    assert a[..2] == DenomPoly(be, 1);
    for k := 1 to 4
      invariant b[..k] == NumerPoly(al, be, k)
      invariant a[..k + 1] == DenomPoly(be, k)
    {
      ExpandStep(alpha, beta, b, a, k);
    }
    assert b[..] == b[..4] && a[..] == a[..5];
  }

  /** Step k of the expansion loop: b[..k + 1] and a[..k + 2] are the products with one more factor. */
  method ExpandStep(alpha: array<Complex>, beta: array<Complex>, b: array<Complex>, a: array<Complex>, k: nat)
    requires alpha.Length == 4 && beta.Length == 4 && b.Length == 4 && a.Length == 5 && 1 <= k < 4
    requires b != a && b != alpha && b != beta && a != alpha && a != beta
    requires b[..k] == NumerPoly(alpha[..], beta[..], k) && a[..k + 1] == DenomPoly(beta[..], k)
    modifies b, a
    ensures b[..k + 1] == NumerPoly(alpha[..], beta[..], k + 1) && a[..k + 2] == DenomPoly(beta[..], k + 1)
  {
    TimesLinearInPlace(b, k, beta[k]);
    AddScaledInPlace(b, a, k + 1, alpha[k]);
    TimesLinearInPlace(a, k + 1, beta[k]);
  }

  /** The last two loops of `compute_coefs`: the coefficient sets read off b and a. */
  method ReadOff(b: array<Complex>, a: array<Complex>, g: real, sign: real) returns (c: Coefs)
    requires b.Length == 4 && a.Length == 5
    ensures c == Readout(b[..], a[..], g, sign)
  {
    var nCausal := new real[4];
    var d := new real[4];
    for i := 0 to 4
      invariant forall j | 0 <= j < i :: nCausal[j] == Div(b[j].re, g) && d[j] == a[j + 1].re
    {
      nCausal[i] := Div(b[i].re, g);
      d[i] := a[i + 1].re;
    }
    var nAnticausal := new real[4];
    for i := 0 to 3
      invariant forall j | 0 <= j < i :: nAnticausal[j] == AntiTerm(sign, nCausal[j + 1], nCausal[0], d[j])
      modifies nAnticausal
    {
      var v := sign * (nCausal[i + 1] - nCausal[0] * d[i]);
      assert v == AntiTerm(sign, nCausal[i + 1], nCausal[0], d[i]);
      nAnticausal[i] := v;
    }
    var top := sign * (-1.0) * nCausal[0] * d[3];
    assert top == AntiTop(sign, nCausal[0], d[3]);
    nAnticausal[3] := top;
    ReadoutOf(b[..], a[..], g, sign, nCausal[..], d[..], nAnticausal[..]);
    c := Coefs(I.Float4(nCausal[0], nCausal[1], nCausal[2], nCausal[3]),
               I.Float4(nAnticausal[0], nAnticausal[1], nAnticausal[2], nAnticausal[3]),
               I.Float4(d[0], d[1], d[2], d[3]));
  }

  /** Coefficient sets computed entry by entry are those of `Readout`. */
  lemma ReadoutOf(b: seq<Complex>, a: seq<Complex>, g: real, s: real, nc: seq<real>, d: seq<real>, na: seq<real>)
    requires |b| == 4 && |a| == 5 && |nc| == 4 && |d| == 4 && |na| == 4
    requires forall j | 0 <= j < 4 :: nc[j] == Div(b[j].re, g) && d[j] == a[j + 1].re
    requires forall j | 0 <= j < 3 :: na[j] == AntiTerm(s, nc[j + 1], nc[0], d[j])
    requires na[3] == AntiTop(s, nc[0], d[3])
    ensures Readout(b, a, g, s) ==
            Coefs(I.Float4(nc[0], nc[1], nc[2], nc[3]), I.Float4(na[0], na[1], na[2], na[3]), I.Float4(d[0], d[1], d[2], d[3]))
  {
  }

  /** `iir::Coefficients`: the three coefficient sets and the parameters they were made for. */
  datatype Coefficients = Coefficients(coefs: Coefs, sigma: real, order: nat, nBorder: nat)

  /**
    The border width `(3 + 0.5 order) sigma`, converted to `unsigned` by truncation. A negative
    product has no defined conversion in C; it is taken as 0 here.
  */
  function BorderWidth(sigma: real, order: nat): (n: nat)
    ensures (3.0 + 0.5 * order as real) * sigma >= 0.0 ==>
              n as real <= (3.0 + 0.5 * order as real) * sigma < n as real + 1.0
    ensures (3.0 + 0.5 * order as real) * sigma < 0.0 ==> n == 0
  {
    var w := (3.0 + 0.5 * order as real) * sigma;
    if w < 0.0 then 0 else Floor(w)
  }

  /**
    The `Coefficients(sigma, order)` constructor: it records sigma, order and the border width
    and runs `compute_coefs`, whose exception it passes on.
  */
  method NewCoefficients(sigma: real, order: nat, m: Libm) returns (r: Result<Coefficients, string>)
    ensures r.Err? <==> order > 2
    ensures r.Err? ==> r.error == OrderError
    ensures r.Ok? ==> r.value == Coefficients(Deriche(sigma, order, m).value, sigma, order, BorderWidth(sigma, order))
  {
    var nBorder := BorderWidth(sigma, order);
    var c := ComputeCoefs(sigma, order, m);
    if c.Err? {
      return Err(c.error);
    }
    r := Ok(Coefficients(c.value, sigma, order, nBorder));
  }
}
