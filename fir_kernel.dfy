/**
  Sampled Gaussian derivative kernels of `src/library/fir_kernel.c`.

  A kernel of half-length `len` stores `len + 1` coefficients, index 0 being the centre tap;
  the full kernel is `c[len], …, c[1], c[0], c[1], …, c[len]` when it is symmetric (orders 0
  and 2) and the same with the left half negated when it is not (order 1).
*/
module FirKernel {
  import opened Wrappers
  import opened Numerics
  import opened Memory

  /** `sizeof(struct _fastfilters_kernel_fir_t)`: length, flag, coefficient pointer and six
      implementation pointers, 8 bytes each. */
  const KernelRecordBytes: nat := 72

  /** `sizeof(float)`. */
  const FloatBytes: nat := 4

  /** Below this |sigma| the kernel degenerates to a single tap. */
  const SigmaEpsilon: real := 0.000001

  /** A kernel record as `fastfilters_kernel_fir_gaussian` returns it. */
  class Kernel {
    /** The address of the record block. */
    var addr: nat
    /** The address of the coefficient block. */
    var coefsAddr: nat
    var len: nat
    var isSymmetric: bool
    var coefs: array<real>
    /** The six cached implementation pointers; None is NULL. */
    var fnInnerMirror: Option<nat>
    var fnInnerPtr: Option<nat>
    var fnInnerOptimistic: Option<nat>
    var fnOuterMirror: Option<nat>
    var fnOuterPtr: Option<nat>
    var fnOuterOptimistic: Option<nat>

    /** No implementation pointer is cached. */
    predicate NoImplementations()
      reads this
    {
      && fnInnerMirror == None && fnInnerPtr == None && fnInnerOptimistic == None
      && fnOuterMirror == None && fnOuterPtr == None && fnOuterOptimistic == None
    }

    /** Sets the six implementation pointers to NULL. */
    method ClearImplementations()
      modifies this`fnInnerMirror, this`fnInnerPtr, this`fnInnerOptimistic
      modifies this`fnOuterMirror, this`fnOuterPtr, this`fnOuterOptimistic
      ensures NoImplementations()
    {
      fnInnerMirror, fnInnerPtr, fnInnerOptimistic := None, None, None;
      fnOuterMirror, fnOuterPtr, fnOuterOptimistic := None, None, None;
    }

    constructor (addr: nat, coefsAddr: nat, len: nat)
      ensures this.addr == addr && this.coefsAddr == coefsAddr && this.len == len
      ensures fresh(coefs) && coefs.Length == len + 1
    {
      this.addr, this.coefsAddr, this.len := addr, coefsAddr, len;
      isSymmetric := true;
      coefs := new real[len + 1];
      fnInnerMirror, fnInnerPtr, fnInnerOptimistic := None, None, None;
      fnOuterMirror, fnOuterPtr, fnOuterOptimistic := None, None, None;
    }
  }

  /**
    The half-length: `floor(window_ratio * sigma + 0.5)` for a positive window ratio, otherwise
    `ceil((3 + order / 2) * sigma)`, and 0 for |sigma| below 1e-6.
  */
  function HalfLength(order: nat, sigma: real, windowRatio: real): (len: nat)
    requires sigma >= 0.0
    ensures sigma < SigmaEpsilon ==> len == 0
    ensures sigma >= SigmaEpsilon && windowRatio > 0.0 ==>
              len as real <= windowRatio * sigma + 0.5 < len as real + 1.0
    ensures sigma >= SigmaEpsilon && windowRatio <= 0.0 ==>
              len as real - 1.0 < (3.0 + 0.5 * order as real) * sigma <= len as real
  {
    if Abs(sigma) < SigmaEpsilon then 0
    else if windowRatio > 0.0 then Floor(windowRatio * sigma + 0.5)
    else Ceil((3.0 + 0.5 * order as real) * sigma)
  }

  /** `sigma2 = -0.5 / sigma / sigma`, the factor of x² in the exponent. */
  function Sigma2(sigma: real): real
  {
    Div(Div(-0.5, sigma), sigma)
  }

  /** `norm`: 1 / (√(2π) σ) for order 0, -1 / (√(2π) σ³) for orders 1 and 2. */
  function Norm(order: nat, sigma: real, lib: Libm): real
  {
    if order == 1 || order == 2 then Div(-1.0, lib.sqrt(2.0 * Pi) * IntPow(sigma, 3))
    else Div(1.0, lib.sqrt(2.0 * Pi) * sigma)
  }

  /** The Gaussian factor `g = norm * exp(x² * sigma2)` at tap x. */
  function Gauss(order: nat, sigma: real, lib: Libm, x: nat): real
  {
    Norm(order, sigma, lib) * lib.exp((x * x) as real * Sigma2(sigma))
  }

  /** The raw sample at tap x: g, x·g or (1 - (x/σ)²)·g for orders 0, 1 and 2. */
  function Sample(order: nat, sigma: real, lib: Libm, x: nat): real
  {
    var g := Gauss(order, sigma, lib, x);
    if order == 0 then g
    else if order == 1 then x as real * g
    else (1.0 - Div(x as real, sigma) * Div(x as real, sigma)) * g
  }

  /** The raw samples at taps 0..len. */
  function Samples(order: nat, sigma: real, len: nat, lib: Libm): (c: seq<real>)
    ensures |c| == len + 1
  {
    seq(len + 1, x requires 0 <= x <= len => Sample(order, sigma, lib, x))
  }

  /** The sum of the full symmetric kernel that c[0..m] stands for: c[0] + 2·Σ_{x=1..m} c[x]. */
  function Mass(c: seq<real>, m: nat): real
    requires m < |c|
  {
    if m == 0 then c[0] else Mass(c, m - 1) + 2.0 * c[m]
  }

  /** Σ_{x=1..m} 2·x·c[x], the first moment of the antisymmetric kernel c stands for. */
  function FirstMoment(c: seq<real>, m: nat): real
    requires m < |c|
  {
    if m == 0 then 0.0 else FirstMoment(c, m - 1) + 2.0 * m as real * c[m]
  }

  /** Σ_{x=1..m} x²·c[x], half the second moment of the symmetric kernel c stands for. */
  function SecondMoment(c: seq<real>, m: nat): real
    requires m < |c|
  {
    if m == 0 then 0.0 else SecondMoment(c, m - 1) + m as real * m as real * c[m]
  }

  /** `sign`: 1 for a symmetric kernel, -1 for an antisymmetric one (order 1). */
  function Sign(order: nat): real
  {
    if order == 1 then -1.0 else 1.0
  }

  /**
    The normalising sum of orders 1 and 2 as the loop accumulates it:
    Σ_{x=1..m} c[x]·(-x)^order / order! + sign·c[x]·x^order / order!.
  */
  function MomentSum(c: seq<real>, order: nat, m: nat): real
    requires m < |c|
  {
    if m == 0 then 0.0
    else
      var fac := Factorial(order) as real;
      MomentSum(c, order, m - 1) + MirrorTerm(c[m], m, order, fac) + SignedTerm(Sign(order), c[m], m, order, fac)
  }

  /** `coefs[x] * pow(-x, order) / faculty`: the contribution of the mirrored tap -x. */
  function MirrorTerm(cx: real, x: nat, order: nat, fac: real): real
  {
    Div(cx * IntPow(-(x as real), order), fac)
  }

  /** `sign * coefs[x] * pow(x, order) / faculty`: the contribution of the tap x. */
  function SignedTerm(sign: real, cx: real, x: nat, order: nat, fac: real): real
  {
    Div(sign * cx * IntPow(x as real, order), fac)
  }

  /** The divisor `sum`: the kernel mass for order 0, the moment sum otherwise. */
  function Normaliser(c: seq<real>, order: nat): real
    requires |c| >= 1
  {
    if order == 0 then Mass(c, |c| - 1) else MomentSum(c, order, |c| - 1)
  }

  /** Every coefficient less `d`. */
  function Shift(c: seq<real>, d: real): (r: seq<real>)
    ensures |r| == |c|
  {
    seq(|c|, i requires 0 <= i < |c| => c[i] - d)
  }

  /** Every coefficient divided by `s`. */
  function Scale(c: seq<real>, s: real): (r: seq<real>)
    ensures |r| == |c|
  {
    seq(|c|, i requires 0 <= i < |c| => Div(c[i], s))
  }

  /** Every coefficient multiplied by -1. */
  function Negate(c: seq<real>): (r: seq<real>)
    ensures |r| == |c|
  {
    seq(|c|, i requires 0 <= i < |c| => c[i] * -1.0)
  }

  /** The DC removal of order 2: the mean tap value of the full kernel is subtracted. */
  function RemoveDc(c: seq<real>): (r: seq<real>)
    requires |c| >= 1
    ensures |r| == |c|
  {
    Shift(c, Div(Mass(c, |c| - 1), 2.0 * (|c| - 1) as real + 1.0))
  }

  /** The samples after the optional DC removal, before normalisation. */
  function Centred(order: nat, sigma: real, len: nat, lib: Libm): (c: seq<real>)
    ensures |c| == len + 1
  {
    var raw := Samples(order, sigma, len, lib);
    if order == 2 then RemoveDc(raw) else raw
  }

  /** The coefficients a successful construction stores. */
  function Coefficients(order: nat, sigma: real, len: nat, lib: Libm): (c: seq<real>)
    ensures |c| == len + 1
  {
    var centred := Centred(order, sigma, len, lib);
    var scaled := Scale(centred, Normaliser(centred, order));
    if order == 1 then Negate(scaled) else scaled
  }

  // Linearity of the sums.

  lemma {:induction false} MassShift(c: seq<real>, d: real, m: nat)
    requires m < |c|
    ensures Mass(Shift(c, d), m) == Mass(c, m) - (2 * m + 1) as real * d
  {
    if m > 0 {
      MassShift(c, d, m - 1);
    }
  }

  lemma {:induction false} MassScale(c: seq<real>, s: real, m: nat)
    requires m < |c| && s != 0.0
    ensures Mass(Scale(c, s), m) == Mass(c, m) / s
  {
    if m > 0 {
      MassScale(c, s, m - 1);
    }
  }

  lemma {:induction false} FirstMomentScale(c: seq<real>, s: real, m: nat)
    requires m < |c| && s != 0.0
    ensures FirstMoment(Scale(c, s), m) == FirstMoment(c, m) / s
  {
    if m > 0 {
      FirstMomentScale(c, s, m - 1);
    }
  }

  lemma {:induction false} FirstMomentNegate(c: seq<real>, m: nat)
    requires m < |c|
    ensures FirstMoment(Negate(c), m) == -FirstMoment(c, m)
  {
    if m > 0 {
      FirstMomentNegate(c, m - 1);
    }
  }

  lemma {:induction false} SecondMomentScale(c: seq<real>, s: real, m: nat)
    requires m < |c| && s != 0.0
    ensures SecondMoment(Scale(c, s), m) == SecondMoment(c, m) / s
  {
    if m > 0 {
      SecondMomentScale(c, s, m - 1);
      var w := m as real * m as real;
      assert Scale(c, s)[m] == c[m] / s;
      MulDiv(w, c[m], s);
      DivAdd(SecondMoment(c, m - 1), w * c[m], s);
    }
  }

  lemma IntPowOne(b: real)
    ensures IntPow(b, 1) == b
  {
    assert IntPow(b, 1) == b * IntPow(b, 0);
  }

  lemma IntPowSquare(b: real)
    ensures IntPow(b, 2) == b * b
  {
    IntPowOne(b);
    assert IntPow(b, 2) == b * IntPow(b, 1);
  }

  lemma MulDiv(w: real, v: real, s: real)
    requires s != 0.0
    ensures w * (v / s) == (w * v) / s
  {
  }

  lemma DivAdd(a: real, b: real, s: real)
    requires s != 0.0
    ensures a / s + b / s == (a + b) / s
  {
  }

  /** With sign -1 and 1! = 1, the normalising loop of order 1 sums -2·x·c[x]. */
  lemma {:induction false} MomentSumOrder1(c: seq<real>, m: nat)
    requires m < |c|
    ensures MomentSum(c, 1, m) == -FirstMoment(c, m)
  {
    if m > 0 {
      MomentSumOrder1(c, m - 1);
      IntPowOne(-(m as real));
      IntPowOne(m as real);
    }
  }

  /** With sign 1 and 2! = 2, the normalising loop of order 2 sums x²·c[x]. */
  lemma {:induction false} MomentSumOrder2(c: seq<real>, m: nat)
    requires m < |c|
    ensures MomentSum(c, 2, m) == SecondMoment(c, m)
  {
    if m > 0 {
      MomentSumOrder2(c, m - 1);
      IntPowSquare(-(m as real));
      IntPowSquare(m as real);
    }
  }

  // The discrete moment conditions of the constructed kernels.

  /** Dividing by the mass gives mass 1. */
  lemma NormalisedMass(c: seq<real>)
    requires |c| >= 1 && Mass(c, |c| - 1) != 0.0
    ensures Mass(Scale(c, Normaliser(c, 0)), |c| - 1) == 1.0
  {
    var m := |c| - 1;
    var s := Normaliser(c, 0);
    assert s == Mass(c, m);
    MassScale(c, s, m);
    DivSelf(s);
  }

  lemma DivSelf(a: real)
    requires a != 0.0
    ensures a / a == 1.0
    ensures (-a) / a == -1.0
  {
  }

  /** Dividing by the order-1 moment sum and negating gives first moment 1. */
  lemma NormalisedFirstMoment(c: seq<real>)
    requires |c| >= 1 && FirstMoment(c, |c| - 1) != 0.0
    ensures FirstMoment(Negate(Scale(c, Normaliser(c, 1))), |c| - 1) == 1.0
  {
    var m := |c| - 1;
    MomentSumOrder1(c, m);
    var s := Normaliser(c, 1);
    assert s == -FirstMoment(c, m);
    FirstMomentScale(c, s, m);
    FirstMomentNegate(Scale(c, s), m);
    DivSelf(s);
  }

  /** Dividing by the order-2 moment sum gives second moment 1. */
  lemma NormalisedSecondMoment(c: seq<real>)
    requires |c| >= 1 && SecondMoment(c, |c| - 1) != 0.0
    ensures SecondMoment(Scale(c, Normaliser(c, 2)), |c| - 1) == 1.0
  {
    var m := |c| - 1;
    MomentSumOrder2(c, m);
    var s := Normaliser(c, 2);
    assert s == SecondMoment(c, m);
    SecondMomentScale(c, s, m);
    DivSelf(s);
  }

  /** Removing the DC gives mass 0. */
  lemma RemovedDcMass(c: seq<real>)
    requires |c| >= 1
    ensures Mass(RemoveDc(c), |c| - 1) == 0.0
  {
    var m := |c| - 1;
    var b := 2.0 * m as real + 1.0;
    var d := Div(Mass(c, m), b);
    assert Mass(RemoveDc(c), m) == Mass(c, m) - (2 * m + 1) as real * d by {
      assert RemoveDc(c) == Shift(c, d);
      MassShift(c, d, m);
    }
    CancelDiv(Mass(c, m), (2 * m + 1) as real, b, d, Mass(RemoveDc(c), m));
  }

  /** Taking off b times the quotient of a by b leaves nothing, for b > 0. */
  lemma CancelDiv(a: real, k: real, b: real, d: real, x: real)
    requires k == b && b > 0.0 && d == Div(a, b) && x == a - k * d
    ensures x == 0.0
  {
  }

  /** Any division keeps a zero mass zero. */
  lemma ScaledZeroMass(c: seq<real>, s: real)
    requires |c| >= 1 && Mass(c, |c| - 1) == 0.0
    ensures Mass(Scale(c, s), |c| - 1) == 0.0
  {
    var m := |c| - 1;
    if s != 0.0 {
      MassScale(c, s, m);
    } else {
      assert Scale(c, s) == seq(m + 1, _ => 0.0);
      MassOfZeros(m + 1, m);
    }
  }

  lemma {:induction false} MassOfZeros(n: nat, m: nat)
    requires m < n
    ensures Mass(seq(n, _ => 0.0), m) == 0.0
  {
    if m > 0 {
      MassOfZeros(n, m - 1);
    }
  }

  /** An order-0 kernel sums to 1 whenever the raw samples do not sum to 0. */
  lemma Order0SumsToOne(sigma: real, len: nat, lib: Libm)
    requires Mass(Samples(0, sigma, len, lib), len) != 0.0
    ensures Mass(Coefficients(0, sigma, len, lib), len) == 1.0
  {
    NormalisedMass(Samples(0, sigma, len, lib));
  }

  /** The DC removal leaves an order-2 kernel with zero sum, and the division keeps it. */
  lemma Order2ZeroDc(sigma: real, len: nat, lib: Libm)
    ensures Mass(Centred(2, sigma, len, lib), len) == 0.0
    ensures Mass(Coefficients(2, sigma, len, lib), len) == 0.0
  {
    var raw := Samples(2, sigma, len, lib);
    RemovedDcMass(raw);
    ScaledZeroMass(RemoveDc(raw), Normaliser(RemoveDc(raw), 2));
  }

  /** An order-1 kernel has unit first moment whenever the raw first moment is not 0. */
  lemma Order1FirstMoment(sigma: real, len: nat, lib: Libm)
    requires FirstMoment(Samples(1, sigma, len, lib), len) != 0.0
    ensures FirstMoment(Coefficients(1, sigma, len, lib), len) == 1.0
  {
    NormalisedFirstMoment(Samples(1, sigma, len, lib));
  }

  /** An order-2 kernel has unit second moment whenever the centred second moment is not 0. */
  lemma Order2SecondMoment(sigma: real, len: nat, lib: Libm)
    requires SecondMoment(Centred(2, sigma, len, lib), len) != 0.0
    ensures SecondMoment(Coefficients(2, sigma, len, lib), len) == 1.0
  {
    NormalisedSecondMoment(Centred(2, sigma, len, lib));
  }

  /**
    `fastfilters_kernel_fir_gaussian`. Orders above 2 and negative sigma yield NULL without
    allocating; so does a failed record or coefficient allocation, with nothing left allocated.
    Otherwise the kernel holds `HalfLength + 1` coefficients computed as `Coefficients`
    describes, is symmetric exactly when the order is not 1, and caches no implementation.
  */
  method Gaussian(heap: Heap, order: nat, sigma: real, windowRatio: real, lib: Libm)
    returns (k: Kernel?)
    requires heap.Valid() && heap.Ready()
    modifies heap`live, heap`outcomes
    ensures heap.Valid()
    ensures order > 2 || sigma < 0.0 ==>
              k == null && heap.live == old(heap.live) && heap.outcomes == old(heap.outcomes)
    ensures order <= 2 && sigma >= 0.0 ==>
              var o := old(heap.outcomes);
              && heap.outcomes == Drop(o, if Outcome(o, 0) == Null then 1 else 2)
              && (k == null <==> Outcome(o, 0) == Null || Outcome(o, 1) == Null)
              && (k == null ==> heap.live == old(heap.live))
    ensures k != null ==>
              && order <= 2 && sigma >= 0.0
              && fresh(k) && fresh(k.coefs)
              && k.addr == Outcome(old(heap.outcomes), 0)
              && k.coefsAddr == Outcome(old(heap.outcomes), 1)
              && k.addr !in old(heap.live) && k.coefsAddr !in old(heap.live) && k.addr != k.coefsAddr
              && heap.live == old(heap.live)[k.addr := KernelRecordBytes]
                                            [k.coefsAddr := FloatBytes * (k.len + 1)]
              && k.len == HalfLength(order, sigma, windowRatio)
              && k.coefs.Length == k.len + 1
              && k.isSymmetric == (order != 1)
              && k.coefs[..] == Coefficients(order, sigma, k.len, lib)
              && k.NoImplementations()
  {
    if order > 2 {
      return null;
    }
    if sigma < 0.0 {
      return null;
    }
    k := AllocKernel(heap, order, sigma, windowRatio, lib);
  }

  /** The part of `Gaussian` after the argument checks: the two allocations and the coefficients. */
  method AllocKernel(heap: Heap, order: nat, sigma: real, windowRatio: real, lib: Libm)
    returns (k: Kernel?)
    requires heap.Valid() && heap.Ready() && order <= 2 && sigma >= 0.0
    modifies heap`live, heap`outcomes
    ensures heap.Valid()
    ensures var o := old(heap.outcomes);
            && heap.outcomes == Drop(o, if Outcome(o, 0) == Null then 1 else 2)
            && (k == null <==> Outcome(o, 0) == Null || Outcome(o, 1) == Null)
            && (k == null ==> heap.live == old(heap.live))
    ensures k != null ==>
              && fresh(k) && fresh(k.coefs)
              && k.addr == Outcome(old(heap.outcomes), 0)
              && k.coefsAddr == Outcome(old(heap.outcomes), 1)
              && k.addr !in old(heap.live) && k.coefsAddr !in old(heap.live) && k.addr != k.coefsAddr
              && heap.live == old(heap.live)[k.addr := KernelRecordBytes]
                                            [k.coefsAddr := FloatBytes * (k.len + 1)]
              && k.len == HalfLength(order, sigma, windowRatio)
              && k.coefs.Length == k.len + 1
              && k.isSymmetric == (order != 1)
              && k.coefs[..] == Coefficients(order, sigma, k.len, lib)
              && k.NoImplementations()
  {
    var len := HalfLength(order, sigma, windowRatio);
    var rec, blk := AllocBlocks(heap, KernelRecordBytes, FloatBytes * (len + 1));
    if rec == Null || blk == Null {
      return null;
    }
    k := NewKernel(rec, blk, len, order, sigma, lib);
  }

  /** The kernel record at the two allocated blocks, its coefficients computed. */
  method NewKernel(rec: nat, blk: nat, len: nat, order: nat, sigma: real, lib: Libm) returns (k: Kernel)
    requires order <= 2
    ensures fresh(k) && fresh(k.coefs)
    ensures k.addr == rec && k.coefsAddr == blk && k.len == len
    ensures k.coefs.Length == len + 1 && k.isSymmetric == (order != 1)
    ensures k.coefs[..] == Coefficients(order, sigma, len, lib)
    ensures k.NoImplementations()
  {
    k := new Kernel(rec, blk, len);
    k.isSymmetric := order != 1;
    ComputeCoefficients(k.coefs, order, sigma, k.isSymmetric, lib);
    k.ClearImplementations();
  }

  /**
    Allocates a record block and then a data block; when the second allocation fails the
    first block is released again.
  */
  method AllocBlocks(heap: Heap, recBytes: nat, dataBytes: nat) returns (rec: nat, blk: nat)
    requires heap.Valid() && heap.Ready()
    modifies heap`live, heap`outcomes
    ensures heap.Valid()
    ensures var o := old(heap.outcomes);
            && rec == Outcome(o, 0)
            && heap.outcomes == Drop(o, if rec == Null then 1 else 2)
            && blk == (if rec == Null then Null else Outcome(o, 1))
    ensures rec == Null || blk == Null ==> heap.live == old(heap.live)
    ensures rec != Null && blk != Null ==>
              && rec !in old(heap.live) && blk !in old(heap.live) && rec != blk
              && heap.live == old(heap.live)[rec := recBytes][blk := dataBytes]
  {
    ghost var o := heap.outcomes;
    rec := heap.Alloc(recBytes);
    if rec == Null {
      return Null, Null;
    }
    blk := heap.Alloc(dataBytes);
    assert Outcome(o, 1) == blk by {
      assert heap.outcomes == Drop(o, 2);
    }
    if blk == Null {
      heap.Free(rec);
      assert heap.live == old(heap.live);
    }
  }

  /** Sampling, DC removal, normalisation and sign flip, in place. */
  method ComputeCoefficients(c: array<real>, order: nat, sigma: real, isSymmetric: bool, lib: Libm)
    requires c.Length >= 1 && order <= 2
    requires isSymmetric == (order != 1)
    modifies c
    ensures c[..] == Coefficients(order, sigma, c.Length - 1, lib)
  {
    FillSamples(c, order, sigma, lib);
    if order == 2 {
      RemoveDcInPlace(c);
    }
    assert c[..] == Centred(order, sigma, c.Length - 1, lib);
    var sum := NormalisingSum(c, order, isSymmetric);
    DivideInPlace(c, sum);
    if !isSymmetric {
      NegateInPlace(c);
    }
  }

  /** The sampling loop: tap x receives the raw sample of the order. */
  method FillSamples(c: array<real>, order: nat, sigma: real, lib: Libm)
    requires c.Length >= 1
    modifies c
    ensures c[..] == Samples(order, sigma, c.Length - 1, lib)
  {
    var x := 0;
    while x < c.Length
      invariant 0 <= x <= c.Length
      invariant forall i | 0 <= i < x :: c[i] == Sample(order, sigma, lib, i)
    {
      // g = norm * exp(x² * sigma2), with norm and sigma2 as computed before the loop
      var g := Gauss(order, sigma, lib, x);
      var value;
      if order == 0 {
        value := g;
      } else if order == 1 {
        value := x as real * g;
      } else {
        value := (1.0 - Div(x as real, sigma) * Div(x as real, sigma)) * g;
      }
      assert value == Sample(order, sigma, lib, x);
      c[x] := value;
      x := x + 1;
    }
  }

  /** The DC removal loops of order 2: the mean, then its subtraction from every tap. */
  method RemoveDcInPlace(c: array<real>)
    requires c.Length >= 1
    modifies c
    ensures c[..] == RemoveDc(old(c[..]))
  {
    ghost var raw := c[..];
    var len := c.Length - 1;
    var dc := c[0];
    var x := 1;
    while x <= len
      invariant 1 <= x <= len + 1
      invariant dc == Mass(raw, x - 1)
    {
      dc := dc + 2.0 * c[x];
      x := x + 1;
    }
    dc := Div(dc, 2.0 * len as real + 1.0);
    x := 0;
    while x <= len
      invariant 0 <= x <= len + 1
      invariant forall i | 0 <= i < x :: c[i] == raw[i] - dc
      invariant forall i | x <= i <= len :: c[i] == raw[i]
    {
      c[x] := c[x] - dc;
      x := x + 1;
    }
  }

  /** The loops that compute `sum`; the flag must be the one the construction set. */
  method NormalisingSum(c: array<real>, order: nat, isSymmetric: bool) returns (sum: real)
    requires c.Length >= 1 && order <= 2
    requires isSymmetric == (order != 1)
    ensures sum == Normaliser(c[..], order)
  {
    if order == 0 {
      sum := MassSum(c);
    } else {
      var faculty := 1;
      var i := 2;
      while i <= order
        invariant 2 <= i <= order + 1
        invariant faculty == Factorial(i - 1)
      {
        faculty := faculty * i;
        i := i + 1;
      }
      var sign := if isSymmetric then 1.0 else -1.0;
      sum := MomentLoop(c, order, faculty, sign);
    }
  }

  /** The order-0 branch of the normalisation loop: the mass of the symmetric kernel. */
  method MassSum(c: array<real>) returns (sum: real)
    requires c.Length >= 1
    ensures sum == Mass(c[..], c.Length - 1)
  {
    var len := c.Length - 1;
    sum := c[0];
    var x := 1;
    while x <= len
      invariant 1 <= x <= len + 1
      invariant sum == Mass(c[..], x - 1)
    {
      sum := sum + 2.0 * c[x];
      x := x + 1;
    }
  }

  /** The derivative branch of the normalisation loop, given the factorial and the sign of the order. */
  method MomentLoop(c: array<real>, order: nat, faculty: nat, sign: real) returns (sum: real)
    requires c.Length >= 1 && faculty == Factorial(order) && sign == Sign(order)
    ensures sum == MomentSum(c[..], order, c.Length - 1)
  {
    var len := c.Length - 1;
    sum := 0.0;
    var x := 1;
    while x <= len
      invariant 1 <= x <= len + 1
      invariant sum == MomentSum(c[..], order, x - 1)
    {
      sum := sum + MirrorTerm(c[x], x, order, faculty as real);
      sum := sum + SignedTerm(sign, c[x], x, order, faculty as real);
      x := x + 1;
    }
  }

  /** `coefs[x] /= sum` for every tap. */
  method DivideInPlace(c: array<real>, s: real)
    modifies c
    ensures c[..] == Scale(old(c[..]), s)
  {
    var x := 0;
    while x < c.Length
      invariant 0 <= x <= c.Length
      invariant forall i | 0 <= i < x :: c[i] == Div(old(c[i]), s)
      invariant forall i | x <= i < c.Length :: c[i] == old(c[i])
    {
      c[x] := Div(c[x], s);
      x := x + 1;
    }
  }

  /** `coefs[x] *= -1` for every tap. */
  method NegateInPlace(c: array<real>)
    modifies c
    ensures c[..] == Negate(old(c[..]))
  {
    var x := 0;
    while x < c.Length
      invariant 0 <= x <= c.Length
      invariant forall i | 0 <= i < x :: c[i] == old(c[i]) * -1.0
      invariant forall i | x <= i < c.Length :: c[i] == old(c[i])
    {
      c[x] := c[x] * -1.0;
      x := x + 1;
    }
  }

  /** `fastfilters_kernel_fir_free`: releases the coefficients, then the record. */
  method Free(heap: Heap, k: Kernel)
    requires heap.Valid() && heap.Ready()
    requires k.addr in heap.live && k.coefsAddr in heap.live && k.addr != k.coefsAddr
    modifies heap`live
    ensures heap.Valid()
    ensures heap.live == old(heap.live) - {k.coefsAddr, k.addr}
  {
    heap.Free(k.coefsAddr);
    heap.Free(k.addr);
  }
}
