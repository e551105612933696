/**
  The older kernel constructor of `src/fir_kernel.c`, which the derived filters of
  `src/fir_filters.c` call: it samples the Gaussian derivative and returns the raw samples,
  without DC removal or normalisation.
*/
module FirKernelLegacy {
  import opened Numerics
  import opened Memory
  import FirKernel

  /** `sizeof(struct _fastfilters_kernel_fir_t)` of `src/common.h`: length, flag and pointer. */
  const KernelRecordBytes: nat := 24

  /** The kernel record of `src/common.h`. */
  class Kernel {
    /** The address of the record block. */
    var addr: nat
    /** The address of the coefficient block. */
    var coefsAddr: nat
    var len: nat
    var isSymmetric: bool
    var coefs: array<real>

    constructor (addr: nat, coefsAddr: nat, len: nat, isSymmetric: bool)
      ensures this.addr == addr && this.coefsAddr == coefsAddr && this.len == len
      ensures this.isSymmetric == isSymmetric
      ensures fresh(coefs) && coefs.Length == len + 1
    {
      this.addr, this.coefsAddr, this.len := addr, coefsAddr, len;
      this.isSymmetric := isSymmetric;
      coefs := new real[len + 1];
    }
  }

  /** The half-length `ceil((3 + order / 2) * sigma)`; there is no window ratio and no cut-off. */
  function HalfLength(order: nat, sigma: real): (len: nat)
    requires sigma >= 0.0
    ensures len as real - 1.0 < (3.0 + 0.5 * order as real) * sigma <= len as real
  {
    Ceil((3.0 + 0.5 * order as real) * sigma)
  }

  /**
    The value the sampling `switch` leaves at tap x. `case 1` has no `break`, so its store of
    x·g is overwritten by the store of `case 2`.
  */
  function Sample(order: nat, sigma: real, lib: Libm, x: nat): real
  {
    var g := FirKernel.Gauss(order, sigma, lib, x);
    if order == 0 then g else (1.0 - Div(x as real, sigma) * Div(x as real, sigma)) * g
  }

  /** The stored coefficients at taps 0..len. */
  function Samples(order: nat, sigma: real, len: nat, lib: Libm): (c: seq<real>)
    ensures |c| == len + 1
  {
    seq(len + 1, x requires 0 <= x <= len => Sample(order, sigma, lib, x))
  }

  /**
    Orders 0 and 2 store exactly the library's raw samples; order 1 stores the raw samples of
    order 2, the second-derivative formula (1 - (x/σ)²)·g, rather than x·g.
  */
  lemma SamplesMatchLibrary(order: nat, sigma: real, len: nat, lib: Libm)
    requires order <= 2
    ensures Samples(order, sigma, len, lib) == FirKernel.Samples(if order == 1 then 2 else order, sigma, len, lib)
  {
    var o := if order == 1 then 2 else order;
    forall x | 0 <= x <= len
      ensures Sample(order, sigma, lib, x) == FirKernel.Sample(o, sigma, lib, x)
    {
      assert FirKernel.Norm(order, sigma, lib) == FirKernel.Norm(o, sigma, lib);
    }
  }

  /**
    The fall-through shows at the centre tap: the library's order-1 kernel has a zero centre
    (x·g at x = 0), the legacy one the full Gaussian peak g(0).
  */
  lemma Order1CentreTap(sigma: real, lib: Libm)
    ensures FirKernel.Sample(1, sigma, lib, 0) == 0.0
    ensures Sample(1, sigma, lib, 0) == FirKernel.Gauss(1, sigma, lib, 0)
  {
  }

  /**
    The older `fastfilters_kernel_fir_gaussian`: NULL for orders above 2, negative sigma or a
    failed allocation, with nothing left allocated; otherwise a kernel of
    `ceil((3 + order / 2) * sigma)` taps beyond the centre holding the raw samples.
  */
  method Gaussian(heap: Heap, order: nat, sigma: real, lib: Libm) returns (k: Kernel?)
    requires heap.Valid() && heap.Ready()
    modifies heap`live, heap`outcomes
    ensures heap.Valid()
    ensures order > 2 || sigma < 0.0 ==>
              k == null && heap.live == old(heap.live) && heap.outcomes == old(heap.outcomes)
    ensures order <= 2 && sigma >= 0.0 ==>
              var o := old(heap.outcomes);
              && heap.outcomes == Drop(o, if Outcome(o, 0) == Null then 1 else 2)
              && (k == null <==> Outcome(o, 0) == Null || Outcome(o, 1) == Null)
              && (k == null ==> heap.live == old(heap.live))
    ensures k != null ==>
              && order <= 2 && sigma >= 0.0
              && fresh(k) && fresh(k.coefs)
              && k.addr == Outcome(old(heap.outcomes), 0)
              && k.coefsAddr == Outcome(old(heap.outcomes), 1)
              && k.addr !in old(heap.live) && k.coefsAddr !in old(heap.live) && k.addr != k.coefsAddr
              && heap.live == old(heap.live)[k.addr := KernelRecordBytes]
                                            [k.coefsAddr := FirKernel.FloatBytes * (k.len + 1)]
              && k.len == HalfLength(order, sigma)
              && k.coefs.Length == k.len + 1
              && k.isSymmetric == (order != 1)
              && k.coefs[..] == Samples(order, sigma, k.len, lib)
  {
    if order > 2 {
      return null;
    }
    if sigma < 0.0 {
      return null;
    }
    var len := HalfLength(order, sigma);
    var rec, blk := FirKernel.AllocBlocks(heap, KernelRecordBytes, FirKernel.FloatBytes * (len + 1));
    if rec == Null || blk == Null {
      return null;
    }
    k := new Kernel(rec, blk, len, order != 1);
    FillSamples(k.coefs, order, sigma, lib);
  }

  /** The sampling loop with its fall-through `switch`. */
  method FillSamples(c: array<real>, order: nat, sigma: real, lib: Libm)
    requires c.Length >= 1
    modifies c
    ensures c[..] == Samples(order, sigma, c.Length - 1, lib)
  {
    var x := 0;
    while x < c.Length
      invariant 0 <= x <= c.Length
      invariant forall i | 0 <= i < x :: c[i] == Sample(order, sigma, lib, i)
    {
      // g = norm * exp(x² * sigma2), with norm and sigma2 as computed before the loop
      var g := FirKernel.Gauss(order, sigma, lib, x);
      var value := if order == 0 then g else (1.0 - Div(x as real, sigma) * Div(x as real, sigma)) * g;
      assert value == Sample(order, sigma, lib, x);
      if order == 0 {
        c[x] := value;
      } else {
        if order == 1 {
          c[x] := x as real * g;
        }
        c[x] := value;
      }
      x := x + 1;
    }
  }

  /** `fastfilters_kernel_fir_free`: releases the coefficients, then the record. */
  method Free(heap: Heap, k: Kernel)
    requires heap.Valid() && heap.Ready()
    requires k.addr in heap.live && k.coefsAddr in heap.live && k.addr != k.coefsAddr
    modifies heap`live
    ensures heap.Valid()
    ensures heap.live == old(heap.live) - {k.coefsAddr, k.addr}
  {
    heap.Free(k.coefsAddr);
    heap.Free(k.addr);
  }
}
