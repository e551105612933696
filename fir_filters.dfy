/**
  The derived filters of `src/fir_filters.c`. Each builds its kernels with the older kernel
  constructor, allocates scratch images where it needs them, runs 2-D convolutions and
  element-wise combinations, stops at the first step that fails, and releases everything it
  allocated on every path.

  A scratch image's buffer comes from the allocator uninitialised; each method that allocates
  one returns, as a ghost out-parameter, the contents the buffer held, and states its results
  in terms of them.
*/
module FirFilters {
  import opened Numerics
  import opened Memory
  import opened Array2d
  import opened FirConvolve
  import FirKernel
  import FirKernelLegacy
  import Linalg

  /** What `fastfilters_kernel_fir_gaussian(order, sigma)` produces when it succeeds. */
  function GaussianArg(order: nat, sigma: real, lib: Libm): (k: KernelArg)
    requires sigma >= 0.0
    ensures k.len == FirKernelLegacy.HalfLength(order, sigma) && |k.coefs| == k.len + 1
    ensures k.symmetric == (order != 1)
  {
    var len := FirKernelLegacy.HalfLength(order, sigma);
    KernelArg(len, order != 1, FirKernelLegacy.Samples(order, sigma, len, lib))
  }

  /** A kernel record as the passes read it. */
  function ArgOf(k: FirKernelLegacy.Kernel): KernelArg
    reads k, k.coefs
  {
    KernelArg(k.len, k.isSymmetric, k.coefs[..])
  }

  /**
    `fastfilters_kernel_fir_gaussian` as the filters see it: a kernel exactly when the order and
    scale are accepted and both of its allocations succeed, holding `GaussianArg` in two blocks
    that were not live; nothing allocated otherwise.
  */
  method NewKernel(heap: Heap, order: nat, sigma: real, lib: Libm) returns (k: FirKernelLegacy.Kernel?)
    requires heap.Valid() && heap.Ready()
    modifies heap`live, heap`outcomes
    ensures heap.Valid()
    ensures k != null <==> Feasible(order, sigma) && AllocsSucceed(old(heap.outcomes), 2)
    ensures k == null ==> heap.live == old(heap.live)
    ensures k != null ==>
              && fresh(k) && fresh(k.coefs)
              && heap.outcomes == Drop(old(heap.outcomes), 2)
              && k.addr !in old(heap.live) && k.coefsAddr !in old(heap.live) && k.addr != k.coefsAddr
              && heap.live == Add(old(heap.live), BlocksOf(k))
              && ArgOf(k) == GaussianArg(order, sigma, lib)
  {
    k := FirKernelLegacy.Gaussian(heap, order, sigma, lib);
  }

  /** The clean-up of the filters: `fastfilters_kernel_fir_free` of a kernel that is not NULL. */
  method Release(heap: Heap, k: FirKernelLegacy.Kernel?)
    requires heap.Valid() && heap.Ready()
    requires k != null ==> k.addr in heap.live && k.coefsAddr in heap.live && k.addr != k.coefsAddr
    modifies heap`live
    ensures heap.Valid()
    ensures heap.live == if k == null then old(heap.live) else old(heap.live) - {k.coefsAddr, k.addr}
  {
    if k != null {
      FirKernelLegacy.Free(heap, k);
    }
  }

  /** The sizes of a kernel's two blocks. */
  function KernelBytes(k: FirKernelLegacy.Kernel): nat
  {
    FirKernelLegacy.KernelRecordBytes
  }

  function CoefsBytes(k: FirKernelLegacy.Kernel): nat
    reads k
  {
    FirKernel.FloatBytes * (k.len + 1)
  }

  /** A pair of blocks: address and size of each. */
  type Blocks = (nat, nat, nat, nat)

  function Add(m: map<nat, nat>, b: Blocks): map<nat, nat>
  {
    m[b.0 := b.1][b.2 := b.3]
  }

  predicate Outside(m: map<nat, nat>, b: Blocks)
  {
    b.0 !in m && b.2 !in m && b.0 != b.2
  }

  /** Two pairs of blocks added in turn and released in the same turn leave the map as it was. */
  lemma TwoReleased(m: map<nat, nat>, b0: Blocks, b1: Blocks)
    requires Outside(m, b0) && Outside(Add(m, b0), b1)
    ensures Add(m, b0) - {b0.2, b0.0} == m
    ensures Add(Add(m, b0), b1) - {b0.2, b0.0} == Add(m, b1)
    ensures Add(Add(m, b0), b1) - {b0.2, b0.0} - {b1.2, b1.0} == m
  {
    PairReleased(m, b0.0, b0.1, b0.2, b0.3);
    ReleaseCommutes(Add(m, b0), {b0.2, b0.0}, b1.0, b1.1, b1.2, b1.3);
    PairReleased(m, b1.0, b1.1, b1.2, b1.3);
  }

  /** The same for three pairs. */
  lemma ThreeReleased(m: map<nat, nat>, b0: Blocks, b1: Blocks, b2: Blocks)
    requires Outside(m, b0) && Outside(Add(m, b0), b1) && Outside(Add(Add(m, b0), b1), b2)
    ensures Add(Add(Add(m, b0), b1), b2) - {b0.2, b0.0} == Add(Add(m, b1), b2)
    ensures Add(Add(Add(m, b0), b1), b2) - {b0.2, b0.0} - {b1.2, b1.0} == Add(m, b2)
    ensures Add(Add(Add(m, b0), b1), b2) - {b0.2, b0.0} - {b1.2, b1.0} - {b2.2, b2.0} == m
  {
    TwoReleased(m, b0, b1);
    ReleaseCommutes(Add(Add(m, b0), b1), {b0.2, b0.0}, b2.0, b2.1, b2.2, b2.3);
    TwoReleased(m, b1, b2);
  }

  /** The two blocks of a kernel. */
  function BlocksOf(k: FirKernelLegacy.Kernel): Blocks
    reads k
  {
    (k.addr, KernelBytes(k), k.coefsAddr, CoefsBytes(k))
  }

  /**
    Three kernels built in turn, as the filters with three kernels do, releasing the ones
    already built when one fails: either all three exist, each in two blocks that were not
    live, or none does and nothing stays allocated.
  */
  method NewKernels3(heap: Heap, o0: nat, o1: nat, o2: nat, sigma: real, lib: Libm)
    returns (k0: FirKernelLegacy.Kernel?, k1: FirKernelLegacy.Kernel?, k2: FirKernelLegacy.Kernel?)
    requires heap.Valid() && heap.Ready()
    modifies heap`live, heap`outcomes
    ensures heap.Valid()
    ensures k0 != null <==> k1 != null
    ensures k0 != null <==> k2 != null
    ensures k0 != null <==>
              Feasible(o0, sigma) && Feasible(o1, sigma) && Feasible(o2, sigma) && AllocsSucceed(old(heap.outcomes), 6)
    ensures k0 == null ==> heap.live == old(heap.live)
    ensures k0 != null && k1 != null && k2 != null ==>
              && fresh(k0) && fresh(k0.coefs) && fresh(k1) && fresh(k1.coefs) && fresh(k2) && fresh(k2.coefs)
              && heap.outcomes == Drop(old(heap.outcomes), 6)
              && Outside(old(heap.live), BlocksOf(k0))
              && Outside(Add(old(heap.live), BlocksOf(k0)), BlocksOf(k1))
              && Outside(Add(Add(old(heap.live), BlocksOf(k0)), BlocksOf(k1)), BlocksOf(k2))
              && heap.live == Add(Add(Add(old(heap.live), BlocksOf(k0)), BlocksOf(k1)), BlocksOf(k2))
              && ArgOf(k0) == GaussianArg(o0, sigma, lib)
              && ArgOf(k1) == GaussianArg(o1, sigma, lib)
              && ArgOf(k2) == GaussianArg(o2, sigma, lib)
  {
    ghost var o, L0 := heap.outcomes, heap.live;
    SucceedSplit(o, 2, 4);
    SucceedSplit(Drop(o, 2), 2, 2);
    k1, k2 := null, null;
    k0 := NewKernel(heap, o0, sigma, lib);
    if k0 == null {
      return;
    }
    k1 := NewKernel(heap, o1, sigma, lib);
    if k1 == null {
      FirKernelLegacy.Free(heap, k0);
      PairReleased(L0, k0.addr, KernelBytes(k0), k0.coefsAddr, CoefsBytes(k0));
      k0 := null;
      return;
    }
    k2 := NewKernel(heap, o2, sigma, lib);
    if k2 == null {
      TwoReleased(L0, BlocksOf(k0), BlocksOf(k1));
      FirKernelLegacy.Free(heap, k0);
      FirKernelLegacy.Free(heap, k1);
      k0, k1 := null, null;
      return;
    }
  }

  /**
    Two kernels built in turn, releasing the first when the second fails: either both exist,
    each in two blocks that were not live, or neither does and nothing stays allocated.
  */
  method NewKernels2(heap: Heap, o0: nat, o1: nat, sigma: real, lib: Libm)
    returns (k0: FirKernelLegacy.Kernel?, k1: FirKernelLegacy.Kernel?)
    requires heap.Valid() && heap.Ready()
    modifies heap`live, heap`outcomes
    ensures heap.Valid()
    ensures k0 != null <==> k1 != null
    ensures k0 != null <==> Feasible(o0, sigma) && Feasible(o1, sigma) && AllocsSucceed(old(heap.outcomes), 4)
    ensures k0 == null ==> heap.live == old(heap.live)
    ensures k0 != null && k1 != null ==>
              && fresh(k0) && fresh(k0.coefs) && fresh(k1) && fresh(k1.coefs)
              && heap.outcomes == Drop(old(heap.outcomes), 4)
              && Outside(old(heap.live), BlocksOf(k0))
              && Outside(Add(old(heap.live), BlocksOf(k0)), BlocksOf(k1))
              && heap.live == Add(Add(old(heap.live), BlocksOf(k0)), BlocksOf(k1))
              && ArgOf(k0) == GaussianArg(o0, sigma, lib)
              && ArgOf(k1) == GaussianArg(o1, sigma, lib)
  {
    ghost var o, L0 := heap.outcomes, heap.live;
    SucceedSplit(o, 2, 2);
    k1 := null;
    k0 := NewKernel(heap, o0, sigma, lib);
    if k0 == null {
      return;
    }
    k1 := NewKernel(heap, o1, sigma, lib);
    if k1 == null {
      FirKernelLegacy.Free(heap, k0);
      PairReleased(L0, k0.addr, KernelBytes(k0), k0.coefsAddr, CoefsBytes(k0));
      k0 := null;
      return;
    }
  }

  /** The clean-up after two kernels were built: `fastfilters_kernel_fir_free` of each in turn. */
  method ReleaseKernels2(heap: Heap, ghost base: map<nat, nat>, k0: FirKernelLegacy.Kernel, k1: FirKernelLegacy.Kernel)
    requires heap.Valid() && heap.Ready()
    requires Outside(base, BlocksOf(k0)) && Outside(Add(base, BlocksOf(k0)), BlocksOf(k1))
    requires heap.live == Add(Add(base, BlocksOf(k0)), BlocksOf(k1))
    modifies heap`live
    ensures heap.Valid() && heap.live == base
  {
    TwoReleased(base, BlocksOf(k0), BlocksOf(k1));
    FirKernelLegacy.Free(heap, k0);
    FirKernelLegacy.Free(heap, k1);
  }

  /** The same for three kernels. */
  method ReleaseKernels3(heap: Heap, ghost base: map<nat, nat>, k0: FirKernelLegacy.Kernel,
                         k1: FirKernelLegacy.Kernel, k2: FirKernelLegacy.Kernel)
    requires heap.Valid() && heap.Ready()
    requires Outside(base, BlocksOf(k0)) && Outside(Add(base, BlocksOf(k0)), BlocksOf(k1))
    requires Outside(Add(Add(base, BlocksOf(k0)), BlocksOf(k1)), BlocksOf(k2))
    requires heap.live == Add(Add(Add(base, BlocksOf(k0)), BlocksOf(k1)), BlocksOf(k2))
    modifies heap`live
    ensures heap.Valid() && heap.live == base
  {
    ThreeReleased(base, BlocksOf(k0), BlocksOf(k1), BlocksOf(k2));
    FirKernelLegacy.Free(heap, k0);
    FirKernelLegacy.Free(heap, k1);
    FirKernelLegacy.Free(heap, k2);
  }

  /** The kernel constructor accepts the order and the scale. */
  predicate Feasible(order: nat, sigma: real)
  {
    order <= 2 && sigma >= 0.0
  }

  /** The allocator is set up and the 2-D driver's passes are bound and keep lengths. */
  ghost predicate Ready(heap: Heap, d: Driver, p: Passes)
    reads heap, d
  {
    heap.Valid() && heap.Ready() && d.Bound() && KeepsLength(d.InnerEffect(p)) && KeepsLength(d.OuterEffect(p))
  }

  /** `fastfilters_fir_convolve2d` over the whole image through the bound passes. */
  function Smoothed(d: Driver, p: Passes, g: Geometry, inData: seq<real>, outData: seq<real>,
                    kx: KernelArg, ky: KernelArg): (r: PassResult)
    reads d
    requires d.Bound() && KeepsLength(d.InnerEffect(p)) && KeepsLength(d.OuterEffect(p))
    ensures |r.out| == |outData|
  {
    Filter2dLength(d.InnerEffect(p), d.OuterEffect(p), g, inData, outData, kx, ky);
    Filter2d(d.InnerEffect(p), d.OuterEffect(p), g, inData, outData, kx, ky)
  }

  /** The geometry of an image that `fastfilters_array2d_alloc` makes. */
  function PackedGeometry(nX: nat, nY: nat, channels: nat): Geometry
  {
    Geometry(nX, nY, channels, channels * nX)
  }

  /**
    `fastfilters_fir_gaussian2d`: the same kernel along both axes. With both kernels built
    (four successful allocations) the result and the output are those of the 2-D convolution;
    otherwise it fails without writing. Nothing stays allocated.
  */
  method Gaussian2d(heap: Heap, lib: Libm, d: Driver, p: Passes, inp: Image, order: nat, sigma: real,
                    out: Image)
    returns (ok: bool)
    requires Ready(heap, d, p)
    modifies heap`live, heap`outcomes, out.data
    ensures heap.Valid() && heap.live == old(heap.live)
    ensures ok ==> Feasible(order, sigma) && AllocsSucceed(old(heap.outcomes), 4)
    ensures Feasible(order, sigma) && AllocsSucceed(old(heap.outcomes), 4) ==>
              && heap.outcomes == Drop(old(heap.outcomes), 4)
              && var k := GaussianArg(order, sigma, lib);
                 var r := Smoothed(d, p, GeometryOf(inp), old(inp.data[..]), old(out.data[..]), k, k);
                 ok == r.ok && out.data[..] == r.out
    ensures !(Feasible(order, sigma) && AllocsSucceed(old(heap.outcomes), 4)) ==>
              out.data[..] == old(out.data[..])
  {
    ghost var L0 := heap.live;
    var kx, ky := NewKernels2(heap, order, order, sigma, lib);
    if kx == null {
      return false;
    }
    ok := d.Convolve2d(p, inp, ArgOf(kx), ArgOf(ky), out.data, 0, 0, 0, 0);
    ReleaseKernels2(heap, L0, kx, ky);
  }

  /** Three outputs held in three separate buffers, none of them the input's. */
  predicate Separate3(inp: Image, a: Image, b: Image, c: Image)
    reads inp, a, b, c
  {
    a.data != b.data && a.data != c.data && b.data != c.data
    && inp.data != a.data && inp.data != b.data && inp.data != c.data
  }

  /** The three convolutions of `fastfilters_fir_hog2d`, in order, up to the first failure. */
  method HogPasses(d: Driver, p: Passes, inp: Image, k0: KernelArg, k1: KernelArg, k2: KernelArg,
                   outXX: Image, outXY: Image, outYY: Image)
    returns (ok: bool)
    requires d.Bound() && KeepsLength(d.InnerEffect(p)) && KeepsLength(d.OuterEffect(p))
    requires Separate3(inp, outXX, outXY, outYY)
    modifies outXX.data, outXY.data, outYY.data
    ensures var g, I := GeometryOf(inp), old(inp.data[..]);
            var xx := Smoothed(d, p, g, I, old(outXX.data[..]), k2, k0);
            var yy := Smoothed(d, p, g, I, old(outYY.data[..]), k0, k2);
            var xy := Smoothed(d, p, g, I, old(outXY.data[..]), k1, k1);
            && ok == (xx.ok && yy.ok && xy.ok)
            && outXX.data[..] == xx.out
            && outYY.data[..] == (if xx.ok then yy.out else old(outYY.data[..]))
            && outXY.data[..] == (if xx.ok && yy.ok then xy.out else old(outXY.data[..]))
  {
    ok := d.Convolve2d(p, inp, k2, k0, outXX.data, 0, 0, 0, 0);
    if ok {
      ok := d.Convolve2d(p, inp, k0, k2, outYY.data, 0, 0, 0, 0);
      if ok {
        ok := d.Convolve2d(p, inp, k1, k1, outXY.data, 0, 0, 0, 0);
      }
    }
  }

  /**
    `fastfilters_fir_hog2d`: the second derivative along x into `out_xx`, along y into
    `out_yy`, the first derivative along both into `out_xy`, in that order, stopping at the
    first convolution that fails. The three kernels take six successful allocations.
  */
  method Hog2d(heap: Heap, lib: Libm, d: Driver, p: Passes, inp: Image, sigma: real,
               outXX: Image, outXY: Image, outYY: Image)
    returns (ok: bool)
    requires Ready(heap, d, p)
    requires Separate3(inp, outXX, outXY, outYY)
    modifies heap`live, heap`outcomes, outXX.data, outXY.data, outYY.data
    ensures heap.Valid() && heap.live == old(heap.live)
    ensures ok ==> sigma >= 0.0 && AllocsSucceed(old(heap.outcomes), 6)
    ensures sigma >= 0.0 && AllocsSucceed(old(heap.outcomes), 6) ==>
              && heap.outcomes == Drop(old(heap.outcomes), 6)
              && var k0, k1, k2 := GaussianArg(0, sigma, lib), GaussianArg(1, sigma, lib), GaussianArg(2, sigma, lib);
                 var g, I := GeometryOf(inp), old(inp.data[..]);
                 var xx := Smoothed(d, p, g, I, old(outXX.data[..]), k2, k0);
                 var yy := Smoothed(d, p, g, I, old(outYY.data[..]), k0, k2);
                 var xy := Smoothed(d, p, g, I, old(outXY.data[..]), k1, k1);
                 && ok == (xx.ok && yy.ok && xy.ok)
                 && outXX.data[..] == xx.out
                 && outYY.data[..] == (if xx.ok then yy.out else old(outYY.data[..]))
                 && outXY.data[..] == (if xx.ok && yy.ok then xy.out else old(outXY.data[..]))
    ensures !(sigma >= 0.0 && AllocsSucceed(old(heap.outcomes), 6)) ==>
              && outXX.data[..] == old(outXX.data[..])
              && outXY.data[..] == old(outXY.data[..])
              && outYY.data[..] == old(outYY.data[..])
  {
    ghost var L0 := heap.live;
    var kSmooth, kFirst, kSecond := NewKernels3(heap, 0, 1, 2, sigma, lib);
    if kSmooth == null {
      return false;
    }
    ok := HogPasses(d, p, inp, ArgOf(kSmooth), ArgOf(kFirst), ArgOf(kSecond), outXX, outXY, outYY);
    ReleaseKernels3(heap, L0, kSmooth, kFirst, kSecond);
  }

  // ---------------------------------------------------------------------------------------
  // Derivative filters

  /** The two convolutions of `fastfilters_fir_deriv2d_inner`, the second only if the first succeeds. */
  method DerivPasses(d: Driver, p: Passes, inp: Image, ks: KernelArg, kd: KernelArg, out0: Image, out1: Image)
    returns (ok: bool)
    requires d.Bound() && KeepsLength(d.InnerEffect(p)) && KeepsLength(d.OuterEffect(p))
    requires out0.data != out1.data && inp.data != out0.data && inp.data != out1.data
    modifies out0.data, out1.data
    ensures var g, I := GeometryOf(inp), old(inp.data[..]);
            var r0 := Smoothed(d, p, g, I, old(out0.data[..]), kd, ks);
            var r1 := Smoothed(d, p, g, I, old(out1.data[..]), ks, kd);
            && ok == (r0.ok && r1.ok)
            && out0.data[..] == r0.out
            && out1.data[..] == (if r0.ok then r1.out else old(out1.data[..]))
  {
    ok := d.Convolve2d(p, inp, kd, ks, out0.data, 0, 0, 0, 0);
    if ok {
      ok := d.Convolve2d(p, inp, ks, kd, out1.data, 0, 0, 0, 0);
    }
  }

  /**
    `fastfilters_fir_deriv2d_inner`: the derivative along x (smoothing along y) into `out0`,
    then the derivative along y (smoothing along x) into `out1`. The two kernels take four
    successful allocations.
  */
  method Deriv2dInner(heap: Heap, lib: Libm, d: Driver, p: Passes, inp: Image, sigma: real, order: nat,
                      out0: Image, out1: Image)
    returns (ok: bool)
    requires Ready(heap, d, p)
    requires out0.data != out1.data && inp.data != out0.data && inp.data != out1.data
    modifies heap`live, heap`outcomes, out0.data, out1.data
    ensures heap.Valid() && heap.live == old(heap.live)
    ensures ok ==> Feasible(order, sigma) && AllocsSucceed(old(heap.outcomes), 4)
    ensures Feasible(order, sigma) && AllocsSucceed(old(heap.outcomes), 4) ==>
              && heap.outcomes == Drop(old(heap.outcomes), 4)
              && var ks, kd := GaussianArg(0, sigma, lib), GaussianArg(order, sigma, lib);
                 var g, I := GeometryOf(inp), old(inp.data[..]);
                 var r0 := Smoothed(d, p, g, I, old(out0.data[..]), kd, ks);
                 var r1 := Smoothed(d, p, g, I, old(out1.data[..]), ks, kd);
                 && ok == (r0.ok && r1.ok)
                 && out0.data[..] == r0.out
                 && out1.data[..] == (if r0.ok then r1.out else old(out1.data[..]))
    ensures !(Feasible(order, sigma) && AllocsSucceed(old(heap.outcomes), 4)) ==>
              out0.data[..] == old(out0.data[..]) && out1.data[..] == old(out1.data[..])
  {
    ghost var L0 := heap.live;
    var kSmooth, kDeriv := NewKernels2(heap, 0, order, sigma, lib);
    if kSmooth == null {
      return false;
    }
    ok := DerivPasses(d, p, inp, ArgOf(kSmooth), ArgOf(kDeriv), out0, out1);
    ReleaseKernels2(heap, L0, kSmooth, kDeriv);
  }

  /**
    What `fastfilters_fir_deriv2d` computes from the input `I`, the scratch buffer's contents
    `T` and the output's `O`: the x-derivative into the scratch buffer, the y-derivative into
    the output, and, when both succeed, the combination of the two over the output's first
    `n` elements, left in the output.
  */
  function DerivResult(d: Driver, p: Passes, lib: Libm, g: Geometry, I: seq<real>, T: seq<real>, O: seq<real>,
                       ks: KernelArg, kd: KernelArg, op: Linalg.Op2, n: nat): (r: PassResult)
    reads d
    requires d.Bound() && KeepsLength(d.InnerEffect(p)) && KeepsLength(d.OuterEffect(p))
    requires n <= |T| && n <= |O|
    ensures |r.out| == |O|
  {
    var r0 := Smoothed(d, p, g, I, T, kd, ks);
    var r1 := Smoothed(d, p, g, I, O, ks, kd);
    if !r0.ok then PassResult(false, O)
    else if !r1.ok then r1
    else PassResult(true, Linalg.Combined(op, lib, r1.out, r0.out, r1.out, n))
  }

  /**
    The derivative filter succeeds exactly when both of its convolutions do, and then element
    i below `n` is the combination of the two derivatives at i, the rest the y-derivative.
  */
  lemma DerivResultCombines(d: Driver, p: Passes, lib: Libm, g: Geometry, I: seq<real>, T: seq<real>,
                            O: seq<real>, ks: KernelArg, kd: KernelArg, op: Linalg.Op2, n: nat)
    requires d.Bound() && KeepsLength(d.InnerEffect(p)) && KeepsLength(d.OuterEffect(p))
    requires n <= |T| && n <= |O|
    ensures var r := DerivResult(d, p, lib, g, I, T, O, ks, kd, op, n);
            var dx, dy := Smoothed(d, p, g, I, T, kd, ks), Smoothed(d, p, g, I, O, ks, kd);
            && (r.ok <==> dx.ok && dy.ok)
            && (!dx.ok ==> r.out == O)
            && (dx.ok ==> forall i :: n <= i < |O| ==> r.out[i] == dy.out[i])
            && (r.ok ==> forall i :: 0 <= i < n ==> r.out[i] == Linalg.Apply2(op, lib, dy.out[i], dx.out[i]))
  {
  }

  /** The combination `fastfilters_fir_deriv2d` applies: `addsqrt` or `add`. */
  function DerivOp(doSqrt: bool): (op: Linalg.Op2)
    ensures doSqrt <==> op == Linalg.AddSqrt
  {
    if doSqrt then Linalg.AddSqrt else Linalg.Add
  }

  /** The blocks of an image. */
  function ImageBlocks(a: Image): Blocks
    reads a
  {
    (a.addr, DescriptorBytes, a.ptr, BufferBytes(a.nX, a.nY, a.nChannels))
  }

  /** The output fits in its buffer and in a scratch image shaped like the input. */
  predicate FitsScratch(inp: Image, out: Image)
    reads inp, out
  {
    Linalg.Count2d(out) <= out.data.Length && Linalg.Count2d(out) <= inp.nChannels * inp.nY * inp.nX
  }

  /**
    `fastfilters_fir_deriv2d`: a scratch image shaped like the input (two allocations) takes
    the x-derivative, the output the y-derivative, and the output then holds their combination.
    `scratch` is what the scratch buffer held when it was allocated.
  */
  method Deriv2d(heap: Heap, lib: Libm, d: Driver, p: Passes, inp: Image, sigma: real, order: nat,
                 out: Image, doSqrt: bool)
    returns (ok: bool, ghost scratch: seq<real>)
    requires Ready(heap, d, p)
    requires inp.data != out.data && FitsScratch(inp, out)
    modifies heap`live, heap`outcomes, out.data
    ensures heap.Valid() && heap.live == old(heap.live)
    ensures ok ==> Feasible(order, sigma) && AllocsSucceed(old(heap.outcomes), 6)
    ensures Feasible(order, sigma) && AllocsSucceed(old(heap.outcomes), 6) ==>
              && heap.outcomes == Drop(old(heap.outcomes), 6)
              && |scratch| == inp.nChannels * inp.nY * inp.nX
              && PassResult(ok, out.data[..]) ==
                 DerivResult(d, p, lib, GeometryOf(inp), old(inp.data[..]), scratch, old(out.data[..]),
                             GaussianArg(0, sigma, lib), GaussianArg(order, sigma, lib), DerivOp(doSqrt),
                             Linalg.Count2d(out))
    ensures !(Feasible(order, sigma) && AllocsSucceed(old(heap.outcomes), 6)) ==>
              out.data[..] == old(out.data[..])
  {
    ghost var o, L0 := heap.outcomes, heap.live;
    SucceedSplit(o, 2, 4);
    scratch := [];
    var tmp := Array2d.Alloc(heap, inp.nX, inp.nY, inp.nChannels);
    if tmp == null {
      return false, scratch;
    }
    scratch := tmp.data[..];
    ok := Deriv2dInner(heap, lib, d, p, inp, sigma, order, tmp, out);
    if ok {
      Linalg.Combine2d(DerivOp(doSqrt), lib, out, tmp, out);
    }
    PairReleased(L0, tmp.addr, DescriptorBytes, tmp.ptr, BufferBytes(tmp.nX, tmp.nY, tmp.nChannels));
    Array2d.Free(heap, tmp);
  }

  /** `fastfilters_fir_gradmag2d`: the gradient magnitude, `sqrt(dx² + dy²)`. */
  method Gradmag2d(heap: Heap, lib: Libm, d: Driver, p: Passes, inp: Image, sigma: real, out: Image)
    returns (ok: bool, ghost scratch: seq<real>)
    requires Ready(heap, d, p)
    requires inp.data != out.data && FitsScratch(inp, out)
    modifies heap`live, heap`outcomes, out.data
    ensures heap.Valid() && heap.live == old(heap.live)
    ensures ok ==> sigma >= 0.0 && AllocsSucceed(old(heap.outcomes), 6)
    ensures sigma >= 0.0 && AllocsSucceed(old(heap.outcomes), 6) ==>
              && heap.outcomes == Drop(old(heap.outcomes), 6)
              && |scratch| == inp.nChannels * inp.nY * inp.nX
              && PassResult(ok, out.data[..]) ==
                 DerivResult(d, p, lib, GeometryOf(inp), old(inp.data[..]), scratch, old(out.data[..]),
                             GaussianArg(0, sigma, lib), GaussianArg(1, sigma, lib), Linalg.AddSqrt,
                             Linalg.Count2d(out))
    ensures !(sigma >= 0.0 && AllocsSucceed(old(heap.outcomes), 6)) ==> out.data[..] == old(out.data[..])
  {
    ok, scratch := Deriv2d(heap, lib, d, p, inp, sigma, 1, out, true);
  }

  /** `fastfilters_fir_laplacian2d`: the sum of the second derivatives, `dxx + dyy`. */
  method Laplacian2d(heap: Heap, lib: Libm, d: Driver, p: Passes, inp: Image, sigma: real, out: Image)
    returns (ok: bool, ghost scratch: seq<real>)
    requires Ready(heap, d, p)
    requires inp.data != out.data && FitsScratch(inp, out)
    modifies heap`live, heap`outcomes, out.data
    ensures heap.Valid() && heap.live == old(heap.live)
    ensures ok ==> sigma >= 0.0 && AllocsSucceed(old(heap.outcomes), 6)
    ensures sigma >= 0.0 && AllocsSucceed(old(heap.outcomes), 6) ==>
              && heap.outcomes == Drop(old(heap.outcomes), 6)
              && |scratch| == inp.nChannels * inp.nY * inp.nX
              && PassResult(ok, out.data[..]) ==
                 DerivResult(d, p, lib, GeometryOf(inp), old(inp.data[..]), scratch, old(out.data[..]),
                             GaussianArg(0, sigma, lib), GaussianArg(2, sigma, lib), Linalg.Add,
                             Linalg.Count2d(out))
    ensures !(sigma >= 0.0 && AllocsSucceed(old(heap.outcomes), 6)) ==> out.data[..] == old(out.data[..])
  {
    ok, scratch := Deriv2d(heap, lib, d, p, inp, sigma, 2, out, false);
  }

  // ---------------------------------------------------------------------------------------
  // Structure tensor

  /** The outcome of the structure tensor: the result and the three output buffers. */
  datatype Tensor = Tensor(ok: bool, xx: seq<real>, xy: seq<real>, yy: seq<real>)

  /**
    What `fastfilters_fir_structure_tensor` computes, from the input `I`, the contents `S`,
    `SX`, `SY` of its three scratch buffers and those of its outputs: the two derivatives at
    the inner scale into the scratch buffers `tmpx` and `tmpy`, then in turn the products
    dx·dx, dy·dy and dx·dy over the first `n` elements of `tmp`, each smoothed at the outer
    scale (over the scratch geometry `pg`) into `out_xx`, `out_yy` and `out_xy`; the first
    failure ends it.
  */
  function TensorResult(d: Driver, p: Passes, lib: Libm, g: Geometry, pg: Geometry, I: seq<real>,
                        S: seq<real>, SX: seq<real>, SY: seq<real>, OXX: seq<real>, OXY: seq<real>, OYY: seq<real>,
                        k0: KernelArg, k1: KernelArg, ko: KernelArg, n: nat): (r: Tensor)
    reads d
    requires d.Bound() && KeepsLength(d.InnerEffect(p)) && KeepsLength(d.OuterEffect(p))
    requires n <= |S| && n <= |SX| && n <= |SY|
    ensures |r.xx| == |OXX| && |r.xy| == |OXY| && |r.yy| == |OYY|
  {
    var dx := Smoothed(d, p, g, I, SX, k1, k0);
    var dy := Smoothed(d, p, g, I, SY, k0, k1);
    if !(dx.ok && dy.ok) then Tensor(false, OXX, OXY, OYY)
    else ProductsResult(d, p, lib, pg, dx.out, dy.out, S, OXX, OXY, OYY, ko, n)
  }

  /**
    The product-and-smooth steps of the structure tensor from the derivatives `X` and `Y` and
    the scratch contents `S`: dx·dx smoothed into `out_xx`, dy·dy into `out_yy`, dx·dy into
    `out_xy`, each product written over the first `n` elements of the scratch buffer.
  */
  function ProductsResult(d: Driver, p: Passes, lib: Libm, pg: Geometry, X: seq<real>, Y: seq<real>,
                          S: seq<real>, OXX: seq<real>, OXY: seq<real>, OYY: seq<real>, ko: KernelArg, n: nat): (r: Tensor)
    reads d
    requires d.Bound() && KeepsLength(d.InnerEffect(p)) && KeepsLength(d.OuterEffect(p))
    requires n <= |S| && n <= |X| && n <= |Y|
    ensures |r.xx| == |OXX| && |r.xy| == |OXY| && |r.yy| == |OYY|
  {
    var p1 := Linalg.Combined(Linalg.Mul, lib, X, X, S, n);
    var xx := Smoothed(d, p, pg, p1, OXX, ko, ko);
    if !xx.ok then Tensor(false, xx.out, OXY, OYY)
    else
      var p2 := Linalg.Combined(Linalg.Mul, lib, Y, Y, p1, n);
      var yy := Smoothed(d, p, pg, p2, OYY, ko, ko);
      if !yy.ok then Tensor(false, xx.out, OXY, yy.out)
      else
        var p3 := Linalg.Combined(Linalg.Mul, lib, X, Y, p2, n);
        var xy := Smoothed(d, p, pg, p3, OXY, ko, ko);
        Tensor(xy.ok, xx.out, xy.out, yy.out)
  }

  /**
    When the products cover the whole scratch buffer `tmp`, as they do for the scratch images
    the filter allocates, the structure tensor does not depend on what `tmp` held.
  */
  lemma TensorIgnoresScratch(d: Driver, p: Passes, lib: Libm, g: Geometry, pg: Geometry, I: seq<real>,
                             S: seq<real>, S': seq<real>, SX: seq<real>, SY: seq<real>,
                             OXX: seq<real>, OXY: seq<real>, OYY: seq<real>,
                             k0: KernelArg, k1: KernelArg, ko: KernelArg, n: nat)
    requires d.Bound() && KeepsLength(d.InnerEffect(p)) && KeepsLength(d.OuterEffect(p))
    requires n == |S| == |S'| && n <= |SX| && n <= |SY|
    ensures TensorResult(d, p, lib, g, pg, I, S, SX, SY, OXX, OXY, OYY, k0, k1, ko, n)
         == TensorResult(d, p, lib, g, pg, I, S', SX, SY, OXX, OXY, OYY, k0, k1, ko, n)
  {
    var dx := Smoothed(d, p, g, I, SX, k1, k0);
    var dy := Smoothed(d, p, g, I, SY, k0, k1);
    if dx.ok && dy.ok {
      assert Linalg.Combined(Linalg.Mul, lib, dx.out, dx.out, S, n)
          == Linalg.Combined(Linalg.Mul, lib, dx.out, dx.out, S', n);
    }
  }

  /**
    One product step of the structure tensor: `tmp` takes the element-wise product of `a` and
    `b`, then `fastfilters_fir_gaussian2d` of order 0 smooths `tmp` into `out`.
  */
  method SmoothProduct(heap: Heap, lib: Libm, d: Driver, p: Passes, a: Image, b: Image, tmp: Image,
                       sigma: real, out: Image)
    returns (ok: bool)
    requires Ready(heap, d, p)
    requires Linalg.Count2d(a) <= a.data.Length && Linalg.Count2d(a) <= b.data.Length
    requires Linalg.Count2d(a) <= tmp.data.Length
    requires tmp.data != out.data
    modifies heap`live, heap`outcomes, tmp.data, out.data
    ensures heap.Valid() && heap.live == old(heap.live)
    ensures tmp.data[..] ==
              Linalg.Combined(Linalg.Mul, lib, old(a.data[..]), old(b.data[..]), old(tmp.data[..]), Linalg.Count2d(a))
    ensures ok ==> sigma >= 0.0 && AllocsSucceed(old(heap.outcomes), 4)
    ensures sigma >= 0.0 && AllocsSucceed(old(heap.outcomes), 4) ==>
              && heap.outcomes == Drop(old(heap.outcomes), 4)
              && var k := GaussianArg(0, sigma, lib);
                 var r := Smoothed(d, p, GeometryOf(tmp), tmp.data[..], old(out.data[..]), k, k);
                 ok == r.ok && out.data[..] == r.out
    ensures !(sigma >= 0.0 && AllocsSucceed(old(heap.outcomes), 4)) ==> out.data[..] == old(out.data[..])
  {
    Linalg.Combine2d(Linalg.Mul, lib, a, b, tmp);
    ok := Gaussian2d(heap, lib, d, p, tmp, 0, sigma, out);
  }

  /** An image that `fastfilters_array2d_alloc(n_x, n_y, channels)` returned. */
  predicate Scratch(a: Image, nX: nat, nY: nat, channels: nat)
    reads a
  {
    a.nX == nX && a.nY == nY && a.nChannels == channels && a.Packed()
    && a.data.Length == channels * nY * nX
  }

  /**
    Three scratch images allocated in turn, releasing those already allocated when one fails:
    either all three exist, each in two blocks that were not live, or none does and nothing
    stays allocated.
  */
  method NewImages3(heap: Heap, nX: nat, nY: nat, channels: nat) returns (a: Image?, b: Image?, c: Image?)
    requires heap.Valid() && heap.Ready()
    modifies heap`live, heap`outcomes
    ensures heap.Valid()
    ensures a != null <==> b != null
    ensures a != null <==> c != null
    ensures a != null <==> AllocsSucceed(old(heap.outcomes), 6)
    ensures a == null ==> heap.live == old(heap.live)
    ensures a != null && b != null && c != null ==>
              && fresh(a) && fresh(a.data) && fresh(b) && fresh(b.data) && fresh(c) && fresh(c.data)
              && a.data != b.data && a.data != c.data && b.data != c.data
              && Scratch(a, nX, nY, channels) && Scratch(b, nX, nY, channels) && Scratch(c, nX, nY, channels)
              && heap.outcomes == Drop(old(heap.outcomes), 6)
              && Outside(old(heap.live), ImageBlocks(a))
              && Outside(Add(old(heap.live), ImageBlocks(a)), ImageBlocks(b))
              && Outside(Add(Add(old(heap.live), ImageBlocks(a)), ImageBlocks(b)), ImageBlocks(c))
              && heap.live == Add(Add(Add(old(heap.live), ImageBlocks(a)), ImageBlocks(b)), ImageBlocks(c))
  {
    ghost var o, L0 := heap.outcomes, heap.live;
    SucceedSplit(o, 2, 4);
    SucceedSplit(Drop(o, 2), 2, 2);
    b, c := null, null;
    a := Array2d.Alloc(heap, nX, nY, channels);
    if a == null {
      return;
    }
    b := Array2d.Alloc(heap, nX, nY, channels);
    if b == null {
      PairReleased(L0, a.addr, DescriptorBytes, a.ptr, BufferBytes(a.nX, a.nY, a.nChannels));
      Array2d.Free(heap, a);
      a := null;
      return;
    }
    c := Array2d.Alloc(heap, nX, nY, channels);
    if c == null {
      TwoReleased(L0, ImageBlocks(a), ImageBlocks(b));
      Array2d.Free(heap, a);
      Array2d.Free(heap, b);
      a, b := null, null;
      return;
    }
  }

  /** The clean-up of the structure tensor: `fastfilters_array2d_free` of each scratch image in turn. */
  method ReleaseImages3(heap: Heap, ghost base: map<nat, nat>, a: Image, b: Image, c: Image)
    requires heap.Valid() && heap.Ready()
    requires Outside(base, ImageBlocks(a)) && Outside(Add(base, ImageBlocks(a)), ImageBlocks(b))
    requires Outside(Add(Add(base, ImageBlocks(a)), ImageBlocks(b)), ImageBlocks(c))
    requires heap.live == Add(Add(Add(base, ImageBlocks(a)), ImageBlocks(b)), ImageBlocks(c))
    modifies heap`live
    ensures heap.Valid() && heap.live == base
  {
    ThreeReleased(base, ImageBlocks(a), ImageBlocks(b), ImageBlocks(c));
    Array2d.Free(heap, a);
    Array2d.Free(heap, b);
    Array2d.Free(heap, c);
  }

  /** Three scratch images and three outputs, all in separate buffers, none the input's. */
  predicate TensorBuffers(inp: Image, tmp: Image, tmpx: Image, tmpy: Image, outXX: Image, outXY: Image, outYY: Image)
    reads inp, tmp, tmpx, tmpy, outXX, outXY, outYY
  {
    && Scratch(tmp, inp.nX, inp.nY, inp.nChannels)
    && Scratch(tmpx, inp.nX, inp.nY, inp.nChannels)
    && Scratch(tmpy, inp.nX, inp.nY, inp.nChannels)
    && tmp.data != tmpx.data && tmp.data != tmpy.data && tmpx.data != tmpy.data
    && inp.data != tmpx.data && inp.data != tmpy.data
    && outXX.data != outXY.data && outXX.data != outYY.data && outXY.data != outYY.data
    && tmp.data != outXX.data && tmp.data != outXY.data && tmp.data != outYY.data
    && tmpx.data != outXX.data && tmpx.data != outXY.data && tmpx.data != outYY.data
    && tmpy.data != outXX.data && tmpy.data != outXY.data && tmpy.data != outYY.data
  }

  /** The number of elements of a scratch image shaped like `inp`. */
  function ScratchCount(inp: Image): nat
    reads inp
  {
    inp.nChannels * inp.nY * inp.nX
  }

  /**
    The steps of `fastfilters_fir_structure_tensor` between allocating and releasing its
    scratch images: the derivatives (four allocations), then three product-and-smooth steps
    (four allocations each).
  */
  method TensorPasses(heap: Heap, lib: Libm, d: Driver, p: Passes, inp: Image, sigmaOuter: real,
                      sigmaInner: real, tmp: Image, tmpx: Image, tmpy: Image,
                      outXX: Image, outXY: Image, outYY: Image)
    returns (ok: bool)
    requires Ready(heap, d, p)
    requires TensorBuffers(inp, tmp, tmpx, tmpy, outXX, outXY, outYY)
    modifies heap`live, heap`outcomes, tmp.data, tmpx.data, tmpy.data, outXX.data, outXY.data, outYY.data
    ensures heap.Valid() && heap.live == old(heap.live)
    ensures ok ==> sigmaInner >= 0.0 && sigmaOuter >= 0.0 && AllocsSucceed(old(heap.outcomes), 16)
    ensures sigmaInner >= 0.0 && sigmaOuter >= 0.0 && AllocsSucceed(old(heap.outcomes), 16) ==>
              && (ok ==> heap.outcomes == Drop(old(heap.outcomes), 16))
              && Tensor(ok, outXX.data[..], outXY.data[..], outYY.data[..]) ==
                 TensorResult(d, p, lib, GeometryOf(inp), PackedGeometry(inp.nX, inp.nY, inp.nChannels),
                              old(inp.data[..]), old(tmp.data[..]), old(tmpx.data[..]), old(tmpy.data[..]),
                              old(outXX.data[..]), old(outXY.data[..]), old(outYY.data[..]),
                              GaussianArg(0, sigmaInner, lib), GaussianArg(1, sigmaInner, lib),
                              GaussianArg(0, sigmaOuter, lib), ScratchCount(inp))
  {
    ghost var o := heap.outcomes;
    SucceedSplit(o, 4, 12);
    LemmaMulComm3(inp.nChannels, inp.nY, inp.nX);
    assert Linalg.Count2d(tmpx) == ScratchCount(inp);
    assert GeometryOf(tmp) == PackedGeometry(inp.nX, inp.nY, inp.nChannels);
    ghost var S := tmp.data[..];
    ok := Deriv2dInner(heap, lib, d, p, inp, sigmaInner, 1, tmpx, tmpy);
    if !ok {
      return;
    }
    assert tmp.data[..] == S;
    ok := ProductSteps(heap, lib, d, p, tmpx, tmpy, tmp, sigmaOuter, outXX, outXY, outYY);
  }

  /** The three product-and-smooth steps of the structure tensor, four allocations each. */
  method ProductSteps(heap: Heap, lib: Libm, d: Driver, p: Passes, dx: Image, dy: Image, tmp: Image,
                      sigma: real, outXX: Image, outXY: Image, outYY: Image)
    returns (ok: bool)
    requires Ready(heap, d, p)
    requires Scratch(dx, tmp.nX, tmp.nY, tmp.nChannels) && Scratch(dy, tmp.nX, tmp.nY, tmp.nChannels)
    requires Scratch(tmp, tmp.nX, tmp.nY, tmp.nChannels)
    requires tmp.data != dx.data && tmp.data != dy.data
    requires outXX.data != outXY.data && outXX.data != outYY.data && outXY.data != outYY.data
    requires tmp.data != outXX.data && tmp.data != outXY.data && tmp.data != outYY.data
    requires dx.data != outXX.data && dx.data != outXY.data && dx.data != outYY.data
    requires dy.data != outXX.data && dy.data != outXY.data && dy.data != outYY.data
    modifies heap`live, heap`outcomes, tmp.data, outXX.data, outXY.data, outYY.data
    ensures heap.Valid() && heap.live == old(heap.live)
    ensures ok ==> sigma >= 0.0 && AllocsSucceed(old(heap.outcomes), 12)
    ensures sigma >= 0.0 && AllocsSucceed(old(heap.outcomes), 12) ==>
              && (ok ==> heap.outcomes == Drop(old(heap.outcomes), 12))
              && Tensor(ok, outXX.data[..], outXY.data[..], outYY.data[..]) ==
                 ProductsResult(d, p, lib, GeometryOf(tmp), old(dx.data[..]), old(dy.data[..]), old(tmp.data[..]),
                                old(outXX.data[..]), old(outXY.data[..]), old(outYY.data[..]),
                                GaussianArg(0, sigma, lib), Linalg.Count2d(dx))
  {
    ghost var o := heap.outcomes;
    SucceedSplit(o, 4, 8);
    SucceedSplit(Drop(o, 4), 4, 4);
    SucceedSplit(o, 8, 4);
    ok := SmoothProduct(heap, lib, d, p, dx, dx, tmp, sigma, outXX);
    if !ok {
      return;
    }
    ok := SmoothProduct(heap, lib, d, p, dy, dy, tmp, sigma, outYY);
    if !ok {
      return;
    }
    ok := SmoothProduct(heap, lib, d, p, dx, dy, tmp, sigma, outXY);
  }

  /**
    `fastfilters_fir_structure_tensor`: three scratch images shaped like the input (six
    allocations), the tensor steps, then the release of the scratch images. `s`, `sx` and `sy`
    are what the scratch buffers `tmp`, `tmpx` and `tmpy` held when they were allocated.
  */
  method StructureTensor(heap: Heap, lib: Libm, d: Driver, p: Passes, inp: Image, sigmaOuter: real,
                         sigmaInner: real, outXX: Image, outXY: Image, outYY: Image)
    returns (ok: bool, ghost s: seq<real>, ghost sx: seq<real>, ghost sy: seq<real>)
    requires Ready(heap, d, p)
    requires outXX.data != outXY.data && outXX.data != outYY.data && outXY.data != outYY.data
    modifies heap`live, heap`outcomes, outXX.data, outXY.data, outYY.data
    ensures heap.Valid() && heap.live == old(heap.live)
    ensures ok ==> sigmaInner >= 0.0 && sigmaOuter >= 0.0 && AllocsSucceed(old(heap.outcomes), 22)
    ensures sigmaInner >= 0.0 && sigmaOuter >= 0.0 && AllocsSucceed(old(heap.outcomes), 22) ==>
              && (ok ==> heap.outcomes == Drop(old(heap.outcomes), 22))
              && |s| == |sx| == |sy| == ScratchCount(inp)
              && Tensor(ok, outXX.data[..], outXY.data[..], outYY.data[..]) ==
                 TensorResult(d, p, lib, GeometryOf(inp), PackedGeometry(inp.nX, inp.nY, inp.nChannels),
                              old(inp.data[..]), s, sx, sy,
                              old(outXX.data[..]), old(outXY.data[..]), old(outYY.data[..]),
                              GaussianArg(0, sigmaInner, lib), GaussianArg(1, sigmaInner, lib),
                              GaussianArg(0, sigmaOuter, lib), ScratchCount(inp))
    ensures !AllocsSucceed(old(heap.outcomes), 6) ==>
              && !ok
              && outXX.data[..] == old(outXX.data[..])
              && outXY.data[..] == old(outXY.data[..])
              && outYY.data[..] == old(outYY.data[..])
  {
    ghost var o, L0 := heap.outcomes, heap.live;
    SucceedSplit(o, 6, 16);
    s, sx, sy := [], [], [];
    var tmp, tmpx, tmpy := NewImages3(heap, inp.nX, inp.nY, inp.nChannels);
    if tmp == null {
      return false, s, sx, sy;
    }
    s, sx, sy := tmp.data[..], tmpx.data[..], tmpy.data[..];
    ok := TensorPasses(heap, lib, d, p, inp, sigmaOuter, sigmaInner, tmp, tmpx, tmpy, outXX, outXY, outYY);
    ReleaseImages3(heap, L0, tmp, tmpx, tmpy);
  }
}
