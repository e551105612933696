/**
  The scalar recursive (IIR) line filter of `src/convolve_iir.cxx`.

  Every line is run twice through a fourth-order recurrence held in two four-slot shift
  registers, `xtmp` (the last samples fed) and `ytmp` (the last sums produced): once forwards
  (the causal pass, preceded by a warm-up over mirrored samples of the left end) into a
  scratch line, and once backwards (the anticausal pass, preceded by a warm-up over the last
  samples of the line), whose sums are added to the scratch values.

  The two entry points differ only in where element i of line `dim` lives: at
  `dim * n_pixels + i` for the inner variant and at `dim + i * stride` for the outer one. In
  the model this is a `Layout`, and the per-line body is written once.
*/
module ConvolveIir {
  import N = FirConvolveNosimdImpl

  // ---------------------------------------------------------------------------------------
  // The recurrence
  // ---------------------------------------------------------------------------------------

  /** A `std::array<float, 4>` or a `float[4]` register. */
  datatype Float4 = Float4(s0: real, s1: real, s2: real, s3: real)

  const Zero4: Float4 := Float4(0.0, 0.0, 0.0, 0.0)

  /** Sample t of s, zero outside [0, |s|): the value of a register slot not yet filled. */
  function At(s: seq<real>, t: int): real
  {
    if 0 <= t < |s| then s[t] else 0.0
  }

  /** The register contents after s[t] was shifted in: [s[t], s[t - 1], s[t - 2], s[t - 3]]. */
  function Window(s: seq<real>, t: int): Float4
  {
    Float4(At(s, t), At(s, t - 1), At(s, t - 2), At(s, t - 3))
  }

  /** The two four-term `for (j = 0; j < 4; ++j)` sums of a step. */
  function Dot(c: Float4, r: Float4): real
  {
    c.s0 * r.s0 + c.s1 * r.s1 + c.s2 * r.s2 + c.s3 * r.s3
  }

  /** The register shift `for (j = 3; j > 0; --j) r[j] = r[j - 1]`. */
  function Shift(r: Float4): Float4
  {
    Float4(r.s0, r.s0, r.s1, r.s2)
  }

  /**
    The sums a pass produces when the samples X are fed in order, starting from zeroed
    registers. With lag 0 (the causal pass) the sum at step t sees X[t]; with lag 1 (the
    anticausal pass) the sample of step t is shifted in only after its sum is formed.
  */
  function Recur(c: Float4, d: Float4, X: seq<real>, lag: nat): (Y: seq<real>)
    ensures |Y| == |X|
    decreases |X|
  {
    if |X| == 0 then []
    else
      var P := Recur(c, d, X[..|X| - 1], lag);
      P + [Dot(c, Window(X, |X| - 1 - lag)) - Dot(d, Window(P, |X| - 2))]
  }

  /**
    The recurrence at every step: sum t is the c-weighted last four samples minus the
    d-weighted last four sums, samples and sums before the start being zero.
  */
  lemma {:induction false} RecurAt(c: Float4, d: Float4, X: seq<real>, lag: nat, t: nat)
    requires t < |X|
    ensures Recur(c, d, X, lag)[t]
         == Dot(c, Window(X, t - lag)) - Dot(d, Window(Recur(c, d, X, lag), t - 1))
    decreases |X|
  {
    var P := X[..|X| - 1];
    var R := Recur(c, d, X, lag);
    var RP := Recur(c, d, P, lag);
    assert R == RP + [Dot(c, Window(X, |X| - 1 - lag)) - Dot(d, Window(RP, |X| - 2))];
    assert Window(RP, t - 1) == Window(R, t - 1);
    if t < |X| - 1 {
      RecurAt(c, d, P, lag, t);
      assert Window(P, t - lag) == Window(X, t - lag);
    }
  }

  /**
    One step of a pass: from the registers before step t, the sum formed is sum t, and the
    sum register after the step holds the sums up to t.
  */
  lemma Step(c: Float4, d: Float4, X: seq<real>, lag: nat, t: nat, xr: Float4, yr: Float4)
    requires t < |X| && xr == Window(X, t - lag) && yr == Window(Recur(c, d, X, lag), t - 1)
    ensures Dot(c, xr) - Dot(d, yr) == Recur(c, d, X, lag)[t]
    ensures Shift(yr).(s0 := Dot(c, xr) - Dot(d, yr)) == Window(Recur(c, d, X, lag), t)
  {
    RecurAt(c, d, X, lag, t);
  }

  /** Shifting sample t into registers holding the samples before it. */
  lemma Push(X: seq<real>, t: nat, xr: Float4)
    requires t < |X| && xr == Window(X, t - 1)
    ensures Shift(xr).(s0 := X[t]) == Window(X, t)
  {
  }

  /**
    A pass is causal: with lag 0 sum t depends on the samples up to X[t] only, with lag 1 on
    the samples before X[t] only.
  */
  lemma {:induction false} RecurCausal(c: Float4, d: Float4, X: seq<real>, X': seq<real>,
                                       lag: nat, t: nat)
    requires lag <= 1
    requires t < |X| && t < |X'| && X[..t + 1 - lag] == X'[..t + 1 - lag]
    ensures Recur(c, d, X, lag)[t] == Recur(c, d, X', lag)[t]
    decreases t
  {
    var R := Recur(c, d, X, lag);
    var R' := Recur(c, d, X', lag);
    RecurAt(c, d, X, lag, t);
    RecurAt(c, d, X', lag, t);
    forall u | 0 <= u < t
      ensures R[u] == R'[u]
    {
      assert X[..u + 1 - lag] == X[..t + 1 - lag][..u + 1 - lag];
      assert X'[..u + 1 - lag] == X'[..t + 1 - lag][..u + 1 - lag];
      RecurCausal(c, d, X, X', lag, u);
    }
    forall v | v <= t - lag
      ensures At(X, v) == At(X', v)
    {
      if 0 <= v {
        assert X[v] == X[..t + 1 - lag][v];
        assert X'[v] == X'[..t + 1 - lag][v];
      }
    }
    assert Window(X, t - lag) == Window(X', t - lag);
    assert Window(R, t - 1) == Window(R', t - 1);
  }

  // ---------------------------------------------------------------------------------------
  // One line
  // ---------------------------------------------------------------------------------------

  /** Every read of a line with `n_border` warm-up steps is in range. */
  predicate BorderFits(nb: nat, n: nat)
  {
    nb == 0 || nb < n
  }

  /** The left warm-up samples x[m], x[m - 1], ..., x[1]. */
  function LeftWarmup(x: seq<real>, m: nat): (w: seq<real>)
    requires BorderFits(m, |x|)
    ensures |w| == m && forall k | 0 <= k < m :: w[k] == x[m - k]
  {
    if m == 0 then [] else [x[m]] + LeftWarmup(x, m - 1)
  }

  /** The samples the causal pass feeds: the left warm-up, then the line itself. */
  function CausalFeed(x: seq<real>, nb: nat): (F: seq<real>)
    requires BorderFits(nb, |x|)
    ensures |F| == nb + |x|
    ensures forall k | 0 <= k < nb :: F[k] == x[nb - k]
    ensures forall k | nb <= k < nb + |x| :: F[k] == x[k - nb]
  {
    LeftWarmup(x, nb) + x
  }

  /**
    The samples the anticausal pass feeds: the right warm-up x[n - nb], ..., x[n - 1] in
    increasing order, then the line backwards.
  */
  function AntiFeed(x: seq<real>, nb: nat): (Z: seq<real>)
    requires BorderFits(nb, |x|)
    ensures |Z| == nb + |x|
    ensures forall k | 0 <= k < nb :: Z[k] == x[|x| - nb + k]
    ensures forall k | nb <= k < nb + |x| :: Z[k] == x[|x| + nb - 1 - k]
  {
    x[|x| - nb..] + Reverse(x)
  }

  /** The samples of s in the opposite order. */
  function Reverse(s: seq<real>): (r: seq<real>)
    ensures |r| == |s| && forall i | 0 <= i < |s| :: r[i] == s[|s| - 1 - i]
  {
    if |s| == 0 then [] else Reverse(s[1..]) + [s[0]]
  }

  /** The anticausal sum formed at pixel i, before x[i] is shifted in. */
  function AntiSum(na: Float4, d: Float4, x: seq<real>, nb: nat, i: nat): real
    requires BorderFits(nb, |x|) && i < |x|
  {
    Recur(na, d, AntiFeed(x, nb), 1)[nb + |x| - 1 - i]
  }

  /**
    The first m pixels of a line of n from the sums of the two passes, C causal and A
    anticausal: pixel i is the causal sum of step nb + i (pixel i) plus the anticausal sum of
    step nb + n - 1 - i (the same pixel, visited backwards).
  */
  function Combine(C: seq<real>, A: seq<real>, nb: nat, n: nat, m: nat): (y: seq<real>)
    requires |C| == nb + n && |A| == nb + n && m <= n
    ensures |y| == m && forall i | 0 <= i < m :: y[i] == C[nb + i] + A[nb + n - 1 - i]
  {
    if m == 0 then [] else Combine(C, A, nb, n, m - 1) + [C[nb + m - 1] + A[nb + n - m]]
  }

  /** The filtered line: output[i] = tmpbfr[i] + the anticausal sum at i. */
  function LineOutput(nc: Float4, na: Float4, d: Float4, x: seq<real>, nb: nat)
    : (y: seq<real>)
    requires BorderFits(nb, |x|)
    ensures |y| == |x|
  {
    Combine(Recur(nc, d, CausalFeed(x, nb), 0), Recur(na, d, AntiFeed(x, nb), 1), nb, |x|, |x|)
  }

  /** The half-sample symmetric index (edge sample repeated) of t in [0, n). */
  function HalfSample(n: int, t: int): int
  {
    if t < 0 then -1 - t else if t >= n then 2 * n - 1 - t else t
  }

  /**
    The two warm-ups extend the line by different mirror rules. The causal pass steps through
    the positions -nb, ..., n - 1, and its step k sees the reflect-101 extension (x[-1] = x[1]);
    the anticausal pass steps through n + nb - 1, ..., 0, and its step k sees the half-sample
    extension (x[n] = x[n - 1]).
  */
  lemma WarmupBorders(x: seq<real>, nb: nat, k: nat)
    requires BorderFits(nb, |x|) && k < nb + |x|
    ensures 0 <= N.Reflect101(|x|, k - nb) < |x| && CausalFeed(x, nb)[k] == x[N.Reflect101(|x|, k - nb)]
    ensures 0 <= HalfSample(|x|, |x| + nb - 1 - k) < |x|
            && AntiFeed(x, nb)[k] == x[HalfSample(|x|, |x| + nb - 1 - k)]
  {
  }

  /**
    The anticausal sum at pixel i does not see x[i], nor any later-processed pixel: changing
    x[i] leaves it alone unless x[i] is also one of the right warm-up samples.
  */
  lemma AnticausalExcludesCurrent(na: Float4, d: Float4, x: seq<real>, nb: nat, i: nat,
                                  v: real)
    requires BorderFits(nb, |x|) && i + nb < |x|
    ensures AntiSum(na, d, x[i := v], nb, i) == AntiSum(na, d, x, nb, i)
  {
    var t := nb + |x| - 1 - i;
    var Z := AntiFeed(x, nb);
    var Z' := AntiFeed(x[i := v], nb);
    assert Z[..t] == Z'[..t];
    RecurCausal(na, d, Z, Z', 1, t);
  }

  // ---------------------------------------------------------------------------------------
  // Linearity
  // ---------------------------------------------------------------------------------------

  /*
    The linearity lemmas name the sequences they relate as parameters (RS == Recur(...)) and
    state the relation over those names, which keeps the recurrence folded in the proofs.
  */

  /** Below index t, S is the pointwise sum of X and Y. */
  ghost predicate IsSum(S: seq<real>, X: seq<real>, Y: seq<real>, t: int)
  {
    |S| == |X| == |Y| && t <= |S| && forall i | 0 <= i < t :: S[i] == X[i] + Y[i]
  }

  /** Below index t, S is X scaled by a. */
  ghost predicate IsScaled(S: seq<real>, a: real, X: seq<real>, t: int)
  {
    |S| == |X| && t <= |S| && forall i | 0 <= i < t :: S[i] == a * X[i]
  }

  function Add4(w: Float4, u: Float4): Float4
  {
    Float4(w.s0 + u.s0, w.s1 + u.s1, w.s2 + u.s2, w.s3 + u.s3)
  }

  function Scale4(a: real, w: Float4): Float4
  {
    Float4(a * w.s0, a * w.s1, a * w.s2, a * w.s3)
  }

  lemma WindowSum(S: seq<real>, X: seq<real>, Y: seq<real>, t: int)
    requires IsSum(S, X, Y, t + 1)
    ensures Window(S, t) == Add4(Window(X, t), Window(Y, t))
  {
  }

  lemma WindowScaled(S: seq<real>, a: real, X: seq<real>, t: int)
    requires IsScaled(S, a, X, t + 1)
    ensures Window(S, t) == Scale4(a, Window(X, t))
  {
  }

  lemma Commutes(c: real, a: real, w: real)
    ensures c * (a * w) == a * (c * w)
  {
  }

  lemma Distributes(a: real, p: real, q: real)
    ensures a * (p + q) == a * p + a * q
  {
  }

  /** One step of three passes whose registers add up. */
  lemma StepSum(c: Float4, d: Float4, xS: Float4, xX: Float4, xY: Float4, yS: Float4, yX: Float4,
                yY: Float4, eS: real, eX: real, eY: real)
    requires xS == Add4(xX, xY) && yS == Add4(yX, yY)
    requires eS == Dot(c, xS) - Dot(d, yS)
    requires eX == Dot(c, xX) - Dot(d, yX) && eY == Dot(c, xY) - Dot(d, yY)
    ensures eS == eX + eY
  {
  }

  /** One step of two passes whose registers are scaled by a. */
  lemma StepScaled(c: Float4, d: Float4, a: real, xS: Float4, xX: Float4, yS: Float4, yX: Float4,
                   eS: real, eX: real)
    requires xS == Scale4(a, xX) && yS == Scale4(a, yX)
    requires eS == Dot(c, xS) - Dot(d, yS) && eX == Dot(c, xX) - Dot(d, yX)
    ensures eS == a * eX
  {
    Commutes(c.s0, a, xX.s0);
    Commutes(c.s1, a, xX.s1);
    Commutes(c.s2, a, xX.s2);
    Commutes(c.s3, a, xX.s3);
    Commutes(d.s0, a, yX.s0);
    Commutes(d.s1, a, yX.s1);
    Commutes(d.s2, a, yX.s2);
    Commutes(d.s3, a, yX.s3);
  }

  lemma SumStepAt(c: Float4, d: Float4, S: seq<real>, X: seq<real>, Y: seq<real>, lag: nat,
                  t: nat, RS: seq<real>, RX: seq<real>, RY: seq<real>)
    requires IsSum(S, X, Y, |S|) && t < |S| && IsSum(RS, RX, RY, t) && t < |RS|
    requires RS[t] == Dot(c, Window(S, t - lag)) - Dot(d, Window(RS, t - 1))
    requires RX[t] == Dot(c, Window(X, t - lag)) - Dot(d, Window(RX, t - 1))
    requires RY[t] == Dot(c, Window(Y, t - lag)) - Dot(d, Window(RY, t - 1))
    ensures RS[t] == RX[t] + RY[t]
  {
    WindowSum(S, X, Y, t - lag);
    WindowSum(RS, RX, RY, t - 1);
    StepSum(c, d, Window(S, t - lag), Window(X, t - lag), Window(Y, t - lag),
            Window(RS, t - 1), Window(RX, t - 1), Window(RY, t - 1), RS[t], RX[t], RY[t]);
  }

  lemma ScaledStepAt(c: Float4, d: Float4, S: seq<real>, a: real, X: seq<real>, lag: nat,
                     t: nat, RS: seq<real>, RX: seq<real>)
    requires IsScaled(S, a, X, |S|) && t < |S| && IsScaled(RS, a, RX, t) && t < |RS|
    requires RS[t] == Dot(c, Window(S, t - lag)) - Dot(d, Window(RS, t - 1))
    requires RX[t] == Dot(c, Window(X, t - lag)) - Dot(d, Window(RX, t - 1))
    ensures RS[t] == a * RX[t]
  {
    WindowScaled(S, a, X, t - lag);
    WindowScaled(RS, a, RX, t - 1);
    StepScaled(c, d, a, Window(S, t - lag), Window(X, t - lag), Window(RS, t - 1),
               Window(RX, t - 1), RS[t], RX[t]);
  }

  lemma {:induction false} RecurSumAt(c: Float4, d: Float4, S: seq<real>, X: seq<real>,
                                      Y: seq<real>, lag: nat, t: nat, RS: seq<real>,
                                      RX: seq<real>, RY: seq<real>)
    requires IsSum(S, X, Y, |S|) && t < |S|
    requires RS == Recur(c, d, S, lag) && RX == Recur(c, d, X, lag) && RY == Recur(c, d, Y, lag)
    ensures RS[t] == RX[t] + RY[t]
    decreases t
  {
    forall u | 0 <= u < t
      ensures RS[u] == RX[u] + RY[u]
    {
      RecurSumAt(c, d, S, X, Y, lag, u, RS, RX, RY);
    }
    RecurAt(c, d, S, lag, t);
    RecurAt(c, d, X, lag, t);
    RecurAt(c, d, Y, lag, t);
    SumStepAt(c, d, S, X, Y, lag, t, RS, RX, RY);
  }

  lemma {:induction false} RecurScaledAt(c: Float4, d: Float4, S: seq<real>, a: real,
                                         X: seq<real>, lag: nat, t: nat, RS: seq<real>,
                                         RX: seq<real>)
    requires IsScaled(S, a, X, |S|) && t < |S|
    requires RS == Recur(c, d, S, lag) && RX == Recur(c, d, X, lag)
    ensures RS[t] == a * RX[t]
    decreases t
  {
    forall u | 0 <= u < t
      ensures RS[u] == a * RX[u]
    {
      RecurScaledAt(c, d, S, a, X, lag, u, RS, RX);
    }
    RecurAt(c, d, S, lag, t);
    RecurAt(c, d, X, lag, t);
    ScaledStepAt(c, d, S, a, X, lag, t, RS, RX);
  }

  /** A pass is additive: feeding the sum of two sample sequences sums the outputs. */
  lemma RecurAdditive(c: Float4, d: Float4, S: seq<real>, X: seq<real>, Y: seq<real>, lag: nat,
                      RS: seq<real>, RX: seq<real>, RY: seq<real>)
    requires IsSum(S, X, Y, |S|)
    requires RS == Recur(c, d, S, lag) && RX == Recur(c, d, X, lag) && RY == Recur(c, d, Y, lag)
    ensures IsSum(RS, RX, RY, |RS|)
  {
    forall t | 0 <= t < |S|
      ensures RS[t] == RX[t] + RY[t]
    {
      RecurSumAt(c, d, S, X, Y, lag, t, RS, RX, RY);
    }
  }

  /** A pass is homogeneous: scaling the samples scales the outputs. */
  lemma RecurHomogeneous(c: Float4, d: Float4, S: seq<real>, a: real, X: seq<real>, lag: nat,
                         RS: seq<real>, RX: seq<real>)
    requires IsScaled(S, a, X, |S|)
    requires RS == Recur(c, d, S, lag) && RX == Recur(c, d, X, lag)
    ensures IsScaled(RS, a, RX, |RS|)
  {
    forall t | 0 <= t < |S|
      ensures RS[t] == a * RX[t]
    {
      RecurScaledAt(c, d, S, a, X, lag, t, RS, RX);
    }
  }

  lemma FeedsSum(s: seq<real>, x: seq<real>, y: seq<real>, nb: nat)
    requires IsSum(s, x, y, |s|) && BorderFits(nb, |s|)
    ensures IsSum(CausalFeed(s, nb), CausalFeed(x, nb), CausalFeed(y, nb), nb + |s|)
    ensures IsSum(AntiFeed(s, nb), AntiFeed(x, nb), AntiFeed(y, nb), nb + |s|)
  {
    forall k | 0 <= k < nb + |s|
      ensures CausalFeed(s, nb)[k] == CausalFeed(x, nb)[k] + CausalFeed(y, nb)[k]
      ensures AntiFeed(s, nb)[k] == AntiFeed(x, nb)[k] + AntiFeed(y, nb)[k]
    {
    }
  }

  lemma FeedsScaled(s: seq<real>, a: real, x: seq<real>, nb: nat)
    requires IsScaled(s, a, x, |s|) && BorderFits(nb, |s|)
    ensures IsScaled(CausalFeed(s, nb), a, CausalFeed(x, nb), nb + |s|)
    ensures IsScaled(AntiFeed(s, nb), a, AntiFeed(x, nb), nb + |s|)
  {
    forall k | 0 <= k < nb + |s|
      ensures CausalFeed(s, nb)[k] == a * CausalFeed(x, nb)[k]
      ensures AntiFeed(s, nb)[k] == a * AntiFeed(x, nb)[k]
    {
    }
  }

  lemma CombineSum(CS: seq<real>, CX: seq<real>, CY: seq<real>, AS: seq<real>, AX: seq<real>,
                   AY: seq<real>, nb: nat, n: nat, ys: seq<real>, yx: seq<real>, yy: seq<real>)
    requires |CS| == nb + n && IsSum(CS, CX, CY, |CS|) && |AS| == nb + n && IsSum(AS, AX, AY, |AS|)
    requires ys == Combine(CS, AS, nb, n, n) && yx == Combine(CX, AX, nb, n, n)
    requires yy == Combine(CY, AY, nb, n, n)
    ensures IsSum(ys, yx, yy, n)
  {
  }

  lemma CombineScaled(CS: seq<real>, CX: seq<real>, AS: seq<real>, AX: seq<real>, a: real,
                      nb: nat, n: nat, ys: seq<real>, yx: seq<real>)
    requires |CS| == nb + n && IsScaled(CS, a, CX, |CS|) && |AS| == nb + n && IsScaled(AS, a, AX, |AS|)
    requires ys == Combine(CS, AS, nb, n, n) && yx == Combine(CX, AX, nb, n, n)
    ensures IsScaled(ys, a, yx, n)
  {
    forall i | 0 <= i < n
      ensures ys[i] == a * yx[i]
    {
      Distributes(a, CX[nb + i], AX[nb + n - 1 - i]);
    }
  }

  /** The filtered line is additive in the line. */
  lemma LineOutputAdditive(nc: Float4, na: Float4, d: Float4, s: seq<real>, x: seq<real>,
                           y: seq<real>, nb: nat, ys: seq<real>, yx: seq<real>, yy: seq<real>)
    requires IsSum(s, x, y, |s|) && BorderFits(nb, |s|)
    requires ys == LineOutput(nc, na, d, s, nb) && yx == LineOutput(nc, na, d, x, nb)
    requires yy == LineOutput(nc, na, d, y, nb)
    ensures IsSum(ys, yx, yy, |ys|)
  {
    FeedsSum(s, x, y, nb);
    var n := |s|;
    var CS, CX, CY := Recur(nc, d, CausalFeed(s, nb), 0), Recur(nc, d, CausalFeed(x, nb), 0),
                      Recur(nc, d, CausalFeed(y, nb), 0);
    var AS, AX, AY := Recur(na, d, AntiFeed(s, nb), 1), Recur(na, d, AntiFeed(x, nb), 1),
                      Recur(na, d, AntiFeed(y, nb), 1);
    RecurAdditive(nc, d, CausalFeed(s, nb), CausalFeed(x, nb), CausalFeed(y, nb), 0, CS, CX, CY);
    RecurAdditive(na, d, AntiFeed(s, nb), AntiFeed(x, nb), AntiFeed(y, nb), 1, AS, AX, AY);
    CombineSum(CS, CX, CY, AS, AX, AY, nb, n, ys, yx, yy);
  }

  /** The filtered line is homogeneous in the line. */
  lemma LineOutputHomogeneous(nc: Float4, na: Float4, d: Float4, s: seq<real>, a: real,
                              x: seq<real>, nb: nat, ys: seq<real>, yx: seq<real>)
    requires IsScaled(s, a, x, |s|) && BorderFits(nb, |s|)
    requires ys == LineOutput(nc, na, d, s, nb) && yx == LineOutput(nc, na, d, x, nb)
    ensures IsScaled(ys, a, yx, |ys|)
  {
    FeedsScaled(s, a, x, nb);
    var n := |s|;
    var CS, CX := Recur(nc, d, CausalFeed(s, nb), 0), Recur(nc, d, CausalFeed(x, nb), 0);
    var AS, AX := Recur(na, d, AntiFeed(s, nb), 1), Recur(na, d, AntiFeed(x, nb), 1);
    RecurHomogeneous(nc, d, CausalFeed(s, nb), a, CausalFeed(x, nb), 0, CS, CX);
    RecurHomogeneous(na, d, AntiFeed(s, nb), a, AntiFeed(x, nb), 1, AS, AX);
    CombineScaled(CS, CX, AS, AX, a, nb, n, ys, yx);
  }

  /** n zero samples. */
  function Zeros(n: nat): (z: seq<real>)
    ensures |z| == n && forall i | 0 <= i < n :: z[i] == 0.0
  {
    if n == 0 then [] else Zeros(n - 1) + [0.0]
  }

  /** A line of zeros filters to a line of zeros. */
  lemma ZeroInZeroOut(nc: Float4, na: Float4, d: Float4, n: nat, nb: nat)
    requires BorderFits(nb, n)
    ensures LineOutput(nc, na, d, Zeros(n), nb) == Zeros(n)
  {
    var z := Zeros(n);
    var y := LineOutput(nc, na, d, z, nb);
    LineOutputAdditive(nc, na, d, z, z, z, nb, y, y, y);
    assert y == z;
  }

  // ---------------------------------------------------------------------------------------
  // Buffers
  // ---------------------------------------------------------------------------------------

  /** Where element i of line `dim` lives: at `dim * lineStep + i * pixelStep`. */
  datatype Layout = Layout(lineStep: nat, pixelStep: nat)

  /** `convolve_iir_inner_single`: lines of n_pixels consecutive elements. */
  function InnerLayout(nPixels: nat): Layout
  {
    Layout(nPixels, 1)
  }

  /** `convolve_iir_outer_single`: line `dim` starts at `dim`, element i is `i * stride` on. */
  function OuterLayout(stride: nat): Layout
  {
    Layout(1, stride)
  }

  /** The product i * k, written as repeated addition. */
  function Times(i: nat, k: nat): nat
    decreases i
  {
    if i == 0 then 0 else Times(i - 1, k) + k
  }

  lemma {:induction false} TimesIs(i: nat, k: nat)
    ensures Times(i, k) == i * k
    decreases i
  {
    if i > 0 {
      TimesIs(i - 1, k);
    }
  }

  /** The address of element i of line `dim`. */
  function Elem(L: Layout, dim: nat, i: nat): nat
  {
    Times(dim, L.lineStep) + Times(i, L.pixelStep)
  }

  lemma ElemIs(L: Layout, dim: nat, i: nat)
    ensures Elem(L, dim, i) == dim * L.lineStep + i * L.pixelStep
  {
    TimesIs(dim, L.lineStep);
    TimesIs(i, L.pixelStep);
  }

  /** Every element of the first nTimes lines lies below len. */
  ghost predicate Fits(L: Layout, nTimes: nat, n: nat, len: nat)
  {
    forall dim, i | 0 <= dim < nTimes && 0 <= i < n :: Elem(L, dim, i) < len
  }

  /** No two elements of the first nTimes lines share an address. */
  ghost predicate Separated(L: Layout, nTimes: nat, n: nat)
  {
    forall d1, i1, d2, i2 | 0 <= d1 < nTimes && 0 <= i1 < n && 0 <= d2 < nTimes && 0 <= i2 < n
      && (d1 != d2 || i1 != i2) :: Elem(L, d1, i1) != Elem(L, d2, i2)
  }

  /** q is one of the first n elements of line `dim`. */
  ghost predicate OnLine(L: Layout, dim: nat, n: nat, q: int)
  {
    n > 0 && (q == Elem(L, dim, n - 1) || OnLine(L, dim, n - 1, q))
  }

  /** q is an element of one of the first nTimes lines. */
  ghost predicate OnLines(L: Layout, nTimes: nat, n: nat, q: int)
  {
    nTimes > 0 && (OnLine(L, nTimes - 1, n, q) || OnLines(L, nTimes - 1, n, q))
  }

  lemma {:induction false} OnLineElem(L: Layout, dim: nat, n: nat, i: nat)
    requires i < n
    ensures OnLine(L, dim, n, Elem(L, dim, i))
  {
    if i < n - 1 {
      OnLineElem(L, dim, n - 1, i);
    }
  }

  /** An element of another line is on no line of its own: the lines are separated. */
  lemma {:induction false} OffLine(L: Layout, nTimes: nat, n: nat, dim: nat, e: nat, i: nat)
    requires Separated(L, nTimes, n) && dim < nTimes && e < nTimes && e != dim && i < n
    ensures !OnLine(L, dim, n, Elem(L, e, i))
  {
    OffLineUpTo(L, nTimes, n, n, dim, e, i);
  }

  lemma {:induction false} OffLineUpTo(L: Layout, nTimes: nat, n: nat, m: nat, dim: nat, e: nat,
                                       i: nat)
    requires Separated(L, nTimes, n) && dim < nTimes && e < nTimes && e != dim && i < n && m <= n
    ensures !OnLine(L, dim, m, Elem(L, e, i))
  {
    if m > 0 {
      assert Elem(L, dim, m - 1) != Elem(L, e, i);
      OffLineUpTo(L, nTimes, n, m - 1, dim, e, i);
    }
  }

  /** An element of the first nTimes lines lies below any len they fit in. */
  lemma {:induction false} OnLinesFits(L: Layout, nTimes: nat, n: nat, len: nat, q: int)
    requires Fits(L, nTimes, n, len) && OnLines(L, nTimes, n, q)
    ensures q < len
  {
    if OnLine(L, nTimes - 1, n, q) {
      OnLineFits(L, nTimes, n, n, nTimes - 1, len, q);
    } else {
      OnLinesFits(L, nTimes - 1, n, len, q);
    }
  }

  lemma {:induction false} OnLineFits(L: Layout, nTimes: nat, n: nat, m: nat, dim: nat, len: nat,
                                      q: int)
    requires Fits(L, nTimes, n, len) && dim < nTimes && m <= n && OnLine(L, dim, m, q)
    ensures q < len
  {
    if q != Elem(L, dim, m - 1) {
      OnLineFits(L, nTimes, n, m - 1, dim, len, q);
    }
  }

  /** Line `dim` of the buffer contents X. */
  function Line(X: seq<real>, L: Layout, nTimes: nat, dim: nat, n: nat): (x: seq<real>)
    requires dim < nTimes && Fits(L, nTimes, n, |X|)
    ensures |x| == n && forall i | 0 <= i < n :: x[i] == X[Elem(L, dim, i)]
  {
    if n == 0 then [] else Line(X, L, nTimes, dim, n - 1) + [X[Elem(L, dim, n - 1)]]
  }

  lemma {:induction false} TimesMono(a: nat, b: nat, k: nat)
    requires a <= b
    ensures Times(a, k) <= Times(b, k)
    decreases b - a
  {
    if a < b {
      TimesMono(a, b - 1, k);
    }
  }

  lemma {:induction false} TimesOne(i: nat)
    ensures Times(i, 1) == i
  {
    if i > 0 {
      TimesOne(i - 1);
    }
  }

  /** Element i < n of inner line dim is dim * n + i, inside the block [dim * n, (dim + 1) * n). */
  lemma InnerElem(n: nat, dim: nat, i: nat)
    requires i < n
    ensures Elem(InnerLayout(n), dim, i) == Times(dim, n) + i < Times(dim + 1, n)
  {
    TimesOne(i);
  }

  lemma InnerLines(nPixels: nat, nTimes: nat)
    ensures Fits(InnerLayout(nPixels), nTimes, nPixels, nTimes * nPixels)
    ensures Separated(InnerLayout(nPixels), nTimes, nPixels)
  {
    var L := InnerLayout(nPixels);
    TimesIs(nTimes, nPixels);
    forall dim, i | 0 <= dim < nTimes && 0 <= i < nPixels
      ensures Elem(L, dim, i) < nTimes * nPixels
    {
      InnerElem(nPixels, dim, i);
      TimesMono(dim + 1, nTimes, nPixels);
    }
    forall d1, i1, d2, i2 | 0 <= d1 < nTimes && 0 <= i1 < nPixels && 0 <= d2 < nTimes
      && 0 <= i2 < nPixels && (d1 != d2 || i1 != i2)
      ensures Elem(L, d1, i1) != Elem(L, d2, i2)
    {
      InnerElem(nPixels, d1, i1);
      InnerElem(nPixels, d2, i2);
      if d1 < d2 {
        TimesMono(d1 + 1, d2, nPixels);
      } else if d2 < d1 {
        TimesMono(d2 + 1, d1, nPixels);
      }
    }
  }

  /** Element i of outer line dim < stride is i * stride + dim, inside [i * stride, (i + 1) * stride). */
  lemma OuterElem(stride: nat, dim: nat, i: nat)
    requires dim < stride
    ensures Elem(OuterLayout(stride), dim, i) == Times(i, stride) + dim < Times(i + 1, stride)
  {
    TimesOne(dim);
  }

  lemma OuterLines(stride: nat, nTimes: nat, nPixels: nat)
    requires nTimes <= stride || nPixels <= 1
    ensures Separated(OuterLayout(stride), nTimes, nPixels)
  {
    var L := OuterLayout(stride);
    forall d1, i1, d2, i2 | 0 <= d1 < nTimes && 0 <= i1 < nPixels && 0 <= d2 < nTimes
      && 0 <= i2 < nPixels && (d1 != d2 || i1 != i2)
      ensures Elem(L, d1, i1) != Elem(L, d2, i2)
    {
      TimesOne(d1);
      TimesOne(d2);
      if i1 != i2 {
        OuterElem(stride, d1, i1);
        OuterElem(stride, d2, i2);
        if i1 < i2 {
          TimesMono(i1 + 1, i2, stride);
        } else {
          TimesMono(i2 + 1, i1, stride);
        }
      }
    }
  }

  // ---------------------------------------------------------------------------------------
  // The loops
  // ---------------------------------------------------------------------------------------

  /** The elements of line `dim` are pairwise distinct. */
  ghost predicate Distinct(L: Layout, dim: nat, n: nat)
  {
    forall i, j | 0 <= i < n && 0 <= j < n && i != j :: Elem(L, dim, i) != Elem(L, dim, j)
  }

  /** Both reads of line `dim` see the samples x. */
  ghost predicate Holds(input: array<real>, L: Layout, dim: nat, x: seq<real>)
    reads input
  {
    (forall i | 0 <= i < |x| :: Elem(L, dim, i) < input.Length)
    && (forall i {:trigger input[Elem(L, dim, i)]} | 0 <= i < |x| :: input[Elem(L, dim, i)] == x[i])
  }

  /** The sample of right warm-up step nb - k is x[n - k]. */
  lemma RightSample(x: seq<real>, Z: seq<real>, nb: nat, k: nat)
    requires |Z| == nb + |x| && 0 < k <= nb <= |x|
    requires forall k | 0 <= k < nb :: Z[k] == x[|x| - nb + k]
    ensures Z[nb - k] == x[|x| - k]
  {
  }

  /** The sample of anticausal step nb + n - 1 - j is x[j]. */
  lemma BackSample(x: seq<real>, Z: seq<real>, nb: nat, j: nat)
    requires |Z| == nb + |x| && j < |x|
    requires forall k | nb <= k < nb + |x| :: Z[k] == x[|x| + nb - 1 - k]
    ensures Z[nb + |x| - 1 - j] == x[j]
  {
  }

  /**
    The left warm-up of line `dim`, whose samples are x: the registers after it hold the
    mirrored samples x[nb], ..., x[1] and the sums they produce.
  */
  method LeftBorder(input: array<real>, L: Layout, dim: nat, ghost x: seq<real>,
                    ghost F: seq<real>, nc: Float4, d: Float4, nb: nat)
    returns (xtmp: Float4, ytmp: Float4)
    requires Holds(input, L, dim, x)
    requires |F| == nb + |x| && BorderFits(nb, |x|)
    requires forall k | 0 <= k < nb :: F[k] == x[nb - k]
    ensures xtmp == Shift(Window(F, nb - 1)) && ytmp == Window(Recur(nc, d, F, 0), nb - 1)
  {
    ghost var RF := Recur(nc, d, F, 0);
    xtmp := Zero4;
    ytmp := Zero4;
    var i := 0;
    while i < nb
      invariant 0 <= i <= nb
      invariant xtmp == Shift(Window(F, i - 1)) && ytmp == Window(RF, i - 1)
    {
      Push(F, i, Window(F, i - 1));
      xtmp := xtmp.(s0 := input[Elem(L, dim, nb - i)]);
      Step(nc, d, F, 0, i, xtmp, ytmp);
      var sum := Dot(nc, xtmp) - Dot(d, ytmp);
      xtmp := Shift(xtmp);
      ytmp := Shift(ytmp).(s0 := sum);
      i := i + 1;
    }
  }

  /** The causal pass of line `dim`: `tmpbfr[i]` is the causal sum at pixel i. */
  method CausalPass(input: array<real>, tmp: array<real>, L: Layout, dim: nat, ghost x: seq<real>,
                    ghost F: seq<real>, nc: Float4, d: Float4, nb: nat, xr: Float4, yr: Float4)
    requires Holds(input, L, dim, x) && tmp.Length == |x| && tmp != input
    requires |F| == nb + |x| && BorderFits(nb, |x|)
    requires forall i | 0 <= i < |x| :: F[nb + i] == x[i]
    requires xr == Shift(Window(F, nb - 1)) && yr == Window(Recur(nc, d, F, 0), nb - 1)
    modifies tmp
    ensures forall i | 0 <= i < |x| :: tmp[i] == Recur(nc, d, F, 0)[nb + i]
  {
    ghost var RF := Recur(nc, d, F, 0);
    var n := tmp.Length;
    var xtmp := xr;
    var ytmp := yr;
    var i := 0;
    while i < n
      invariant 0 <= i <= n
      invariant xtmp == Shift(Window(F, nb + i - 1)) && ytmp == Window(RF, nb + i - 1)
      invariant forall j | 0 <= j < i :: tmp[j] == RF[nb + j]
    {
      Push(F, nb + i, Window(F, nb + i - 1));
      xtmp := xtmp.(s0 := input[Elem(L, dim, i)]);
      Step(nc, d, F, 0, nb + i, xtmp, ytmp);
      var sum := Dot(nc, xtmp) - Dot(d, ytmp);
      xtmp := Shift(xtmp);
      tmp[i] := sum;
      ytmp := Shift(ytmp).(s0 := sum);
      i := i + 1;
    }
  }

  /**
    The right warm-up of line `dim`, from reset registers: they end up holding the last nb
    samples x[n - nb], ..., x[n - 1] and the sums they produce.
  */
  method RightBorder(input: array<real>, L: Layout, dim: nat, ghost x: seq<real>,
                     ghost Z: seq<real>, n: nat, na: Float4, d: Float4, nb: nat)
    returns (xtmp: Float4, ytmp: Float4)
    requires Holds(input, L, dim, x) && n == |x|
    requires |Z| == nb + |x| && BorderFits(nb, |x|)
    requires forall k | 0 <= k < nb :: Z[k] == x[|x| - nb + k]
    ensures xtmp == Window(Z, nb - 1) && ytmp == Window(Recur(na, d, Z, 1), nb - 1)
  {
    ghost var RZ := Recur(na, d, Z, 1);
    xtmp := Zero4;
    ytmp := Zero4;
    var k: int := nb;
    while k > 0
      invariant 0 <= k <= nb
      invariant xtmp == Window(Z, nb - k - 1) && ytmp == Window(RZ, nb - k - 1)
    {
      Step(na, d, Z, 1, nb - k, xtmp, ytmp);
      Push(Z, nb - k, xtmp);
      RightSample(x, Z, nb, k);
      var sum := Dot(na, xtmp) - Dot(d, ytmp);
      xtmp := Shift(xtmp).(s0 := input[Elem(L, dim, n - k)]);
      ytmp := Shift(ytmp).(s0 := sum);
      k := k - 1;
    }
  }

  /**
    The anticausal pass of line `dim`: output[i] = tmpbfr[i] + the anticausal sum at i.
    Sample i is read before element i is written, so input and output may be the same buffer.
  */
  method AnticausalPass(input: array<real>, output: array<real>, tmp: array<real>, L: Layout,
                        dim: nat, n: nat, ghost x: seq<real>, ghost Z: seq<real>, na: Float4,
                        d: Float4, nb: nat, xr: Float4, yr: Float4)
    requires n == |x| && Holds(input, L, dim, x) && Distinct(L, dim, n)
    requires forall i | 0 <= i < n :: Elem(L, dim, i) < output.Length
    requires tmp.Length == n && tmp != input && tmp != output
    requires |Z| == nb + n
    requires forall k | nb <= k < nb + |x| :: Z[k] == x[|x| + nb - 1 - k]
    requires xr == Window(Z, nb - 1) && yr == Window(Recur(na, d, Z, 1), nb - 1)
    modifies output
    ensures forall i | 0 <= i < n ::
              output[Elem(L, dim, i)] == old(tmp[i]) + Recur(na, d, Z, 1)[nb + n - 1 - i]
    ensures forall q | 0 <= q < output.Length && !OnLine(L, dim, n, q) :: output[q] == old(output[q])
  {
    ghost var RZ := Recur(na, d, Z, 1);
    ghost var T := tmp[..];
    ghost var A := seq(n, m requires 0 <= m < n => T[m] + RZ[nb + n - 1 - m]);
    ghost var O := output[..];
    var xtmp := xr;
    var ytmp := yr;
    var j: int := n - 1;
    ghost var t: int := nb - 1;
    while j >= 0
      invariant -1 <= j < n && t == nb + n - 2 - j
      invariant xtmp == Window(Z, t) && ytmp == Window(RZ, t)
      invariant forall m {:trigger input[Elem(L, dim, m)]} | 0 <= m <= j :: input[Elem(L, dim, m)] == x[m]
      invariant forall m | j < m < n :: output[Elem(L, dim, m)] == A[m]
      invariant forall q | 0 <= q < output.Length && !OnLine(L, dim, n, q) :: output[q] == O[q]
    {
      var sum;
      sum, xtmp, ytmp := AnticausalStep(input[Elem(L, dim, j)], x, Z, na, d, nb, n, j, t, xtmp, ytmp);
      StoreSample(input, output, L, dim, n, j, tmp[j] + sum, x, A, O);
      j := j - 1;
      t := t + 1;
    }
  }

  /**
    Writing sample j of line `dim` keeps the samples of the line still to be read (those before j),
    the samples already written and everything off the line.
  */
  method StoreSample(input: array<real>, output: array<real>, L: Layout, dim: nat, n: nat, j: nat,
                     v: real, ghost x: seq<real>, ghost A: seq<real>, ghost O: seq<real>)
    requires j < n && n == |x| && n == |A| && Distinct(L, dim, n) && |O| == output.Length
    requires forall m | 0 <= m < n :: Elem(L, dim, m) < input.Length && Elem(L, dim, m) < output.Length
    requires forall m {:trigger input[Elem(L, dim, m)]} | 0 <= m <= j :: input[Elem(L, dim, m)] == x[m]
    requires forall m | j < m < n :: output[Elem(L, dim, m)] == A[m]
    requires forall q | 0 <= q < output.Length && !OnLine(L, dim, n, q) :: output[q] == O[q]
    requires v == A[j]
    modifies output
    ensures forall m {:trigger input[Elem(L, dim, m)]} | 0 <= m < j :: input[Elem(L, dim, m)] == x[m]
    ensures forall m | j <= m < n :: output[Elem(L, dim, m)] == A[m]
    ensures forall q | 0 <= q < output.Length && !OnLine(L, dim, n, q) :: output[q] == O[q]
  {
    OnLineElem(L, dim, n, j);
    output[Elem(L, dim, j)] := v;
  }

  /**
    Step nb + n - 1 - j of the anticausal pass, which reads pixel j (the value s): the sum is
    the anticausal sum at j, and the registers move on by one sample.
  */
  method AnticausalStep(s: real, ghost x: seq<real>, ghost Z: seq<real>, na: Float4, d: Float4,
                        nb: nat, n: nat, j: nat, ghost t: int, xr: Float4, yr: Float4)
    returns (sum: real, xtmp: Float4, ytmp: Float4)
    requires n == |x| && j < n && s == x[j] && |Z| == nb + n && t == nb + n - 2 - j
    requires forall k | nb <= k < nb + |x| :: Z[k] == x[|x| + nb - 1 - k]
    requires xr == Window(Z, t) && yr == Window(Recur(na, d, Z, 1), t)
    ensures sum == Recur(na, d, Z, 1)[nb + n - 1 - j]
    ensures xtmp == Window(Z, t + 1) && ytmp == Window(Recur(na, d, Z, 1), t + 1)
  {
    Step(na, d, Z, 1, nb + n - 1 - j, xr, yr);
    Push(Z, nb + n - 1 - j, xr);
    BackSample(x, Z, nb, j);
    sum := Dot(na, xr) - Dot(d, yr);
    xtmp := Shift(xr).(s0 := s);
    ytmp := Shift(yr).(s0 := sum);
  }

  /** The body of the `dim` loop: filters line `dim` of input, whose samples are x, into line `dim` of output. */
  method FilterLine(input: array<real>, output: array<real>, tmp: array<real>, L: Layout,
                    dim: nat, n: nat, ghost x: seq<real>, nc: Float4, na: Float4, d: Float4,
                    nb: nat)
    requires |x| == n && BorderFits(nb, n)
    requires Holds(input, L, dim, x) && Distinct(L, dim, n)
    requires forall i | 0 <= i < n :: Elem(L, dim, i) < output.Length
    requires tmp.Length == n && tmp != input && tmp != output
    modifies output, tmp
    ensures forall i | 0 <= i < n :: output[Elem(L, dim, i)] == LineOutput(nc, na, d, x, nb)[i]
    ensures forall q | 0 <= q < output.Length && !OnLine(L, dim, n, q) :: output[q] == old(output[q])
  {
    CausalHalf(input, tmp, L, dim, n, x, nc, d, nb);
    AnticausalHalf(input, output, tmp, L, dim, n, x, na, d, nb);
  }

  /** The left warm-up and the causal pass of line `dim`. */
  method CausalHalf(input: array<real>, tmp: array<real>, L: Layout, dim: nat, n: nat,
                    ghost x: seq<real>, nc: Float4, d: Float4, nb: nat)
    requires |x| == n && BorderFits(nb, n)
    requires Holds(input, L, dim, x) && tmp.Length == n && tmp != input
    modifies tmp
    ensures forall i | 0 <= i < n :: tmp[i] == Recur(nc, d, CausalFeed(x, nb), 0)[nb + i]
  {
    ghost var F := CausalFeed(x, nb);
    var xtmp, ytmp := LeftBorder(input, L, dim, x, F, nc, d, nb);
    CausalPass(input, tmp, L, dim, x, F, nc, d, nb, xtmp, ytmp);
  }

  /** The right warm-up and the anticausal pass of line `dim`, from reset registers. */
  method AnticausalHalf(input: array<real>, output: array<real>, tmp: array<real>, L: Layout,
                        dim: nat, n: nat, ghost x: seq<real>, na: Float4, d: Float4, nb: nat)
    requires |x| == n && BorderFits(nb, n)
    requires Holds(input, L, dim, x) && Distinct(L, dim, n)
    requires forall i | 0 <= i < n :: Elem(L, dim, i) < output.Length
    requires tmp.Length == n && tmp != input && tmp != output
    modifies output
    ensures forall i | 0 <= i < n ::
              output[Elem(L, dim, i)] == old(tmp[i]) + Recur(na, d, AntiFeed(x, nb), 1)[nb + n - 1 - i]
    ensures forall q | 0 <= q < output.Length && !OnLine(L, dim, n, q) :: output[q] == old(output[q])
  {
    ghost var Z := AntiFeed(x, nb);
    var xtmp, ytmp := RightBorder(input, L, dim, x, Z, n, na, d, nb);
    AnticausalPass(input, output, tmp, L, dim, n, x, Z, na, d, nb, xtmp, ytmp);
  }

  /** The `dim` loop shared by both entry points, with the scratch line `tmpbfr`. */
  method FilterLines(input: array<real>, output: array<real>, L: Layout, nTimes: nat, n: nat,
                     nc: Float4, na: Float4, d: Float4, nb: nat)
    requires BorderFits(nb, n)
    requires Separated(L, nTimes, n)
    requires Fits(L, nTimes, n, input.Length) && Fits(L, nTimes, n, output.Length)
    modifies output
    ensures Done(output[..], Outputs(old(input[..]), L, nTimes, n, nc, na, d, nb),
                 old(output[..]), L, nTimes, nTimes, n)
  {
    var tmpbfr := new real[n](_ => 0.0);
    ghost var X := input[..];
    ghost var O := output[..];
    ghost var Y := Outputs(X, L, nTimes, n, nc, na, d, nb);
    var dim := 0;
    while dim < nTimes
      invariant 0 <= dim <= nTimes
      invariant Done(output[..], Y, O, L, nTimes, dim, n)
      invariant forall q | 0 <= q < input.Length && !OnLines(L, dim, n, q) :: input[q] == X[q]
    {
      OutputsAt(X, L, nTimes, n, nc, na, d, nb, dim);
      FilterNext(input, output, tmpbfr, X, Line(X, L, nTimes, dim, n), Y, O, L, nTimes, dim, n,
                 nc, na, d, nb);
      dim := dim + 1;
    }
  }

  /** The filtered lines of the buffer contents X. */
  ghost function Outputs(X: seq<real>, L: Layout, nTimes: nat, n: nat, nc: Float4, na: Float4,
                         d: Float4, nb: nat): (Y: seq<seq<real>>)
    requires BorderFits(nb, n) && Fits(L, nTimes, n, |X|)
    ensures |Y| == nTimes
  {
    seq(nTimes, e requires 0 <= e < nTimes => LineOutput(nc, na, d, Line(X, L, nTimes, e, n), nb))
  }

  lemma OutputsAt(X: seq<real>, L: Layout, nTimes: nat, n: nat, nc: Float4, na: Float4,
                  d: Float4, nb: nat, e: nat)
    requires BorderFits(nb, n) && Fits(L, nTimes, n, |X|) && e < nTimes
    ensures Outputs(X, L, nTimes, n, nc, na, d, nb)[e] == LineOutput(nc, na, d, Line(X, L, nTimes, e, n), nb)
  {
  }

  /**
    After `dim` rounds of the loop, with output holding Out: lines before `dim` hold their
    filtered samples Y, and every other element is as it was (O).
  */
  ghost predicate Done(Out: seq<real>, Y: seq<seq<real>>, O: seq<real>, L: Layout, nTimes: nat,
                       dim: nat, n: nat)
  {
    && dim <= nTimes && |O| == |Out| && |Y| == nTimes && Fits(L, nTimes, n, |Out|)
    && (forall e | 0 <= e < nTimes :: |Y[e]| == n)
    && (forall e, i {:trigger Out[Elem(L, e, i)]} | 0 <= e < dim && 0 <= i < n ::
          Out[Elem(L, e, i)] == Y[e][i])
    && (forall q | 0 <= q < |Out| && !OnLines(L, dim, n, q) :: Out[q] == O[q])
  }

  /** Filling line `dim` of P, and nothing else, gives Q: one more line is done. */
  lemma DoneNext(P: seq<real>, Q: seq<real>, Y: seq<seq<real>>, O: seq<real>, L: Layout,
                 nTimes: nat, dim: nat, n: nat)
    requires dim < nTimes && Separated(L, nTimes, n) && |Q| == |P|
    requires Done(P, Y, O, L, nTimes, dim, n)
    requires forall i | 0 <= i < n :: Q[Elem(L, dim, i)] == Y[dim][i]
    requires forall q | 0 <= q < |Q| && !OnLine(L, dim, n, q) :: Q[q] == P[q]
    ensures Done(Q, Y, O, L, nTimes, dim + 1, n)
  {
    forall e, i | 0 <= e < dim && 0 <= i < n
      ensures Q[Elem(L, e, i)] == Y[e][i]
    {
      OffLine(L, nTimes, n, dim, e, i);
    }
  }

  /** One round of the `dim` loop: line `dim`, whose samples are x, is filtered. */
  method FilterNext(input: array<real>, output: array<real>, tmp: array<real>, ghost X: seq<real>,
                    ghost x: seq<real>, ghost Y: seq<seq<real>>, ghost O: seq<real>, L: Layout,
                    nTimes: nat, dim: nat, n: nat, nc: Float4, na: Float4, d: Float4, nb: nat)
    requires dim < nTimes && Separated(L, nTimes, n) && |X| == input.Length && BorderFits(nb, n)
    requires Fits(L, nTimes, n, input.Length)
    requires |x| == n && forall i | 0 <= i < n :: x[i] == X[Elem(L, dim, i)]
    requires tmp.Length == n && tmp != input && tmp != output
    requires Done(output[..], Y, O, L, nTimes, dim, n)
    requires forall i | 0 <= i < n :: Y[dim][i] == LineOutput(nc, na, d, x, nb)[i]
    requires forall q | 0 <= q < input.Length && !OnLines(L, dim, n, q) :: input[q] == X[q]
    modifies output, tmp
    ensures Done(output[..], Y, O, L, nTimes, dim + 1, n)
    ensures forall q | 0 <= q < input.Length && !OnLines(L, dim + 1, n, q) :: input[q] == X[q]
  {
    forall i | 0 <= i < n
      ensures input[Elem(L, dim, i)] == x[i]
    {
      NotOnEarlier(L, nTimes, n, dim, i);
    }
    forall i, j | 0 <= i < n && 0 <= j < n && i != j
      ensures Elem(L, dim, i) != Elem(L, dim, j)
    {
    }
    ghost var P := output[..];
    FilterLine(input, output, tmp, L, dim, n, x, nc, na, d, nb);
    DoneNext(P, output[..], Y, O, L, nTimes, dim, n);
  }

  /** An element of line `dim` is on none of the lines before it. */
  lemma {:induction false} NotOnEarlier(L: Layout, nTimes: nat, n: nat, dim: nat, i: nat)
    requires Separated(L, nTimes, n) && dim < nTimes && i < n
    ensures !OnLines(L, dim, n, Elem(L, dim, i))
  {
    NotOnLines(L, nTimes, n, dim, dim, i);
  }

  lemma {:induction false} NotOnLines(L: Layout, nTimes: nat, n: nat, k: nat, dim: nat, i: nat)
    requires Separated(L, nTimes, n) && k <= dim < nTimes && i < n
    ensures !OnLines(L, k, n, Elem(L, dim, i))
  {
    if k > 0 {
      OffLine(L, nTimes, n, k - 1, dim, i);
      NotOnLines(L, nTimes, n, k - 1, dim, i);
    }
  }

  /**
    `convolve_iir_inner_single`: filters n_times consecutive lines of n_pixels; every element
    past the last line is left alone.
  */
  method InnerSingle(input: array<real>, nPixels: nat, nTimes: nat, output: array<real>,
                     nCausal: Float4, nAnticausal: Float4, d: Float4, nBorder: nat)
    requires BorderFits(nBorder, nPixels)
    requires nTimes * nPixels <= input.Length && nTimes * nPixels <= output.Length
    modifies output
    ensures (InnerLines(nPixels, nTimes);
             forall dim, i | 0 <= dim < nTimes && 0 <= i < nPixels ::
               output[Elem(InnerLayout(nPixels), dim, i)]
               == LineOutput(nCausal, nAnticausal, d,
                             Line(old(input[..]), InnerLayout(nPixels), nTimes, dim, nPixels), nBorder)[i])
    ensures forall q | nTimes * nPixels <= q < output.Length :: output[q] == old(output[q])
  {
    InnerLines(nPixels, nTimes);
    FilterLines(input, output, InnerLayout(nPixels), nTimes, nPixels, nCausal, nAnticausal, d, nBorder);
    forall dim | 0 <= dim < nTimes {
      OutputsAt(old(input[..]), InnerLayout(nPixels), nTimes, nPixels, nCausal, nAnticausal, d, nBorder, dim);
    }
    forall q | nTimes * nPixels <= q < output.Length
      ensures output[q] == old(output[q])
    {
      InnerBeyond(nPixels, nTimes, q);
    }
  }

  /** No element of the first n_times inner lines lies at or past n_times * n_pixels. */
  lemma InnerBeyond(nPixels: nat, nTimes: nat, q: int)
    requires nTimes * nPixels <= q
    ensures !OnLines(InnerLayout(nPixels), nTimes, nPixels, q)
  {
    InnerLines(nPixels, nTimes);
    if OnLines(InnerLayout(nPixels), nTimes, nPixels, q) {
      OnLinesFits(InnerLayout(nPixels), nTimes, nPixels, nTimes * nPixels, q);
    }
  }

  /**
    `convolve_iir_outer_single`: filters n_times interleaved lines whose elements are stride
    apart; every element of no line is left alone. The lines must not share elements.
  */
  method OuterSingle(input: array<real>, nPixels: nat, nTimes: nat, output: array<real>,
                     nCausal: Float4, nAnticausal: Float4, d: Float4, nBorder: nat,
                     stride: nat)
    requires BorderFits(nBorder, nPixels)
    requires nTimes <= stride || nPixels <= 1
    requires Fits(OuterLayout(stride), nTimes, nPixels, input.Length)
    requires Fits(OuterLayout(stride), nTimes, nPixels, output.Length)
    modifies output
    ensures forall dim, i | 0 <= dim < nTimes && 0 <= i < nPixels ::
              output[Elem(OuterLayout(stride), dim, i)]
              == LineOutput(nCausal, nAnticausal, d,
                            Line(old(input[..]), OuterLayout(stride), nTimes, dim, nPixels), nBorder)[i]
    ensures forall q | 0 <= q < output.Length && !OnLines(OuterLayout(stride), nTimes, nPixels, q) ::
              output[q] == old(output[q])
  {
    OuterLines(stride, nTimes, nPixels);
    FilterLines(input, output, OuterLayout(stride), nTimes, nPixels, nCausal, nAnticausal, d, nBorder);
    forall dim | 0 <= dim < nTimes {
      OutputsAt(old(input[..]), OuterLayout(stride), nTimes, nPixels, nCausal, nAnticausal, d, nBorder, dim);
    }
  }
}
