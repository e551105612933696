/**
  The pybind11 layer of `src/python/core.cxx`: how a NumPy buffer becomes a library array
  descriptor, the kernel object, the kernel-count dispatch of `convolve_fir`, the checks of
  `linalg_ev2d`, and the layout of the arrays the eigenvalue bindings return.

  A buffer is described by what `py::buffer_info` reports: the base address, the extent of every
  axis and its stride in bytes. The filter bindings and `convolve_fir` take their inputs as
  C-contiguous float arrays. `linalg_ev2d` takes any float array without a copy, and of its
  strides it uses only the row stride. Strides are never negative here.
*/
module PythonCore {
  import opened Wrappers
  import opened Numerics
  import opened Memory
  import Linalg
  import FirKernel

  /** `sizeof(float)`. */
  const FloatBytes: nat := 4

  /** The most channels an interleaved channel axis may have. */
  const MaxChannels: nat := 8

  const TooFewDimensions: string := "Too few dimensions."
  const BadChannelAxis: string :=
    "Invalid number of dimensions or too many channels or stride between channels."
  const KernelNull: string := "fastfilters_kernel_fir_gaussian returned NULL."
  const BadKernelCount: string := "Invalid number of dimensions."
  const Convolve2dFailed: string := "fastfilters_fir_convolve2d returned false."
  const Convolve3dFailed: string := "fastfilters_fir_convolve3d returned false."
  const NotTwoDimensions: string := "matrix must have two dimensions."
  const FirstNotThree: string := "1st dimension must have len = 3."

  /** The part of `py::buffer_info` the bindings read. */
  datatype Buffer = Buffer(ptr: nat, shape: seq<nat>, strides: seq<nat>)

  /** `buffer_info` reports one stride per axis. */
  predicate WellFormed(b: Buffer)
  {
    |b.shape| == |b.strides|
  }

  /** The number of elements of an array of the given extents. */
  function Product(s: seq<nat>): nat
  {
    if |s| == 0 then 1 else s[0] * Product(s[1..])
  }

  /**
    The byte strides of a C-contiguous float array: the last axis is dense and every other axis
    steps over one full sub-array of the axes after it.
  */
  function CStrides(shape: seq<nat>): (r: seq<nat>)
    ensures |r| == |shape|
    ensures |shape| > 0 ==> r[|shape| - 1] == FloatBytes
  {
    if |shape| == 0 then [] else [FloatBytes * Product(shape[1..])] + CStrides(shape[1..])
  }

  lemma CStridesOfOne(a: nat)
    ensures CStrides([a]) == [FloatBytes]
  {
    assert [a][1..] == [];
  }

  lemma CStridesOfTwo(a: nat, b: nat)
    ensures CStrides([a, b]) == [FloatBytes * b, FloatBytes]
  {
    assert [a, b][1..] == [b];
    assert Product([b]) == b by { assert [b][1..] == []; }
    CStridesOfOne(b);
  }

  lemma CStridesOfThree(a: nat, b: nat, c: nat)
    ensures CStrides([a, b, c]) == [FloatBytes * (b * c), FloatBytes * c, FloatBytes]
  {
    assert [a, b, c][1..] == [b, c];
    ProductOfTwo(b, c);
    CStridesOfTwo(b, c);
  }

  lemma CStridesOfFour(a: nat, b: nat, c: nat, d: nat)
    ensures CStrides([a, b, c, d]) == [FloatBytes * (b * (c * d)), FloatBytes * (c * d), FloatBytes * d, FloatBytes]
  {
    assert [a, b, c, d][1..] == [b, c, d];
    ProductOfThree(b, c, d);
    CStridesOfThree(b, c, d);
  }

  lemma CStridesOfFive(a: nat, b: nat, c: nat, d: nat, e: nat)
    ensures CStrides([a, b, c, d, e]) ==
            [FloatBytes * (b * (c * (d * e))), FloatBytes * (c * (d * e)), FloatBytes * (d * e), FloatBytes * e, FloatBytes]
  {
    assert [a, b, c, d, e][1..] == [b, c, d, e];
    ProductOfFour(b, c, d, e);
    CStridesOfFour(b, c, d, e);
  }

  // ---------------------------------------------------------------------------------------
  // convert_py2ff

  /** A `fastfilters_array2d_t` value filled in by the binding. */
  class View2d {
    var ptr: nat
    var nX: nat
    var nY: nat
    var strideX: nat
    var strideY: nat
    var nChannels: nat

    constructor ()
    {
    }
  }

  /** A `fastfilters_array3d_t` value filled in by the binding. */
  class View3d {
    var ptr: nat
    var nX: nat
    var nY: nat
    var nZ: nat
    var strideX: nat
    var strideY: nat
    var strideZ: nat
    var nChannels: nat

    constructor ()
    {
    }
  }

  /**
    The channel count `convert_py2ff` derives for a buffer read with ffNdim spatial axes: one
    without a further axis, the extent of a single further dense axis of fewer than 8 elements,
    and None where the conversion throws.
  */
  function ChannelCount(np: Buffer, ffNdim: nat): Option<nat>
    requires WellFormed(np)
  {
    if |np.shape| == ffNdim then Some(1)
    else if |np.shape| == ffNdim + 1 && np.shape[ffNdim] < MaxChannels && np.strides[ffNdim] == FloatBytes
    then Some(np.shape[ffNdim])
    else None
  }

  /** The message `convert_py2ff` throws, if any. */
  function ConversionError(np: Buffer, ffNdim: nat): (r: Option<string>)
    requires WellFormed(np)
    ensures r == None <==> |np.shape| >= ffNdim && ChannelCount(np, ffNdim).Some?
    ensures |np.shape| < ffNdim ==> r == Some(TooFewDimensions)
    ensures r.Some? && |np.shape| >= ffNdim ==> r == Some(BadChannelAxis)
  {
    if |np.shape| < ffNdim then Some(TooFewDimensions)
    else if ChannelCount(np, ffNdim).None? then Some(BadChannelAxis)
    else None
  }

  /**
    `convert_py2ff` for a 2-D descriptor: with at least two axes the first two give rows and
    columns, strides counted in floats; a throw on the channel axis leaves the geometry written.
  */
  method ConvertPy2ff2d(np: Buffer, ff: View2d) returns (err: Option<string>)
    requires WellFormed(np)
    modifies ff
    ensures err == ConversionError(np, 2)
    ensures |np.shape| < 2 ==> unchanged(ff)
    ensures |np.shape| >= 2 ==>
              && ff.ptr == np.ptr
              && ff.nX == np.shape[1] && ff.strideX == np.strides[1] / FloatBytes
              && ff.nY == np.shape[0] && ff.strideY == np.strides[0] / FloatBytes
              && ff.nChannels == (if err == None then ChannelCount(np, 2).value else old(ff.nChannels))
  {
    if |np.shape| >= 2 {
      ff.ptr := np.ptr;
      ff.nX := np.shape[1];
      ff.strideX := np.strides[1] / FloatBytes;
      ff.nY := np.shape[0];
      ff.strideY := np.strides[0] / FloatBytes;
    } else {
      return Some(TooFewDimensions);
    }
    if |np.shape| == 2 {
      ff.nChannels := 1;
    } else if |np.shape| == 3 && np.shape[2] < MaxChannels && np.strides[2] == FloatBytes {
      ff.nChannels := np.shape[2];
    } else {
      return Some(BadChannelAxis);
    }
    return None;
  }

  /** `convert_py2ff` for a 3-D descriptor: the first three axes give planes, rows and columns. */
  method ConvertPy2ff3d(np: Buffer, ff: View3d) returns (err: Option<string>)
    requires WellFormed(np)
    modifies ff
    ensures err == ConversionError(np, 3)
    ensures |np.shape| < 3 ==> unchanged(ff)
    ensures |np.shape| >= 3 ==>
              && ff.ptr == np.ptr
              && ff.nX == np.shape[2] && ff.strideX == np.strides[2] / FloatBytes
              && ff.nY == np.shape[1] && ff.strideY == np.strides[1] / FloatBytes
              && ff.nZ == np.shape[0] && ff.strideZ == np.strides[0] / FloatBytes
              && ff.nChannels == (if err == None then ChannelCount(np, 3).value else old(ff.nChannels))
  {
    if |np.shape| >= 3 {
      ff.ptr := np.ptr;
      ff.nX := np.shape[2];
      ff.strideX := np.strides[2] / FloatBytes;
      ff.nY := np.shape[1];
      ff.strideY := np.strides[1] / FloatBytes;
      ff.nZ := np.shape[0];
      ff.strideZ := np.strides[0] / FloatBytes;
    } else {
      return Some(TooFewDimensions);
    }
    if |np.shape| == 3 {
      ff.nChannels := 1;
    } else if |np.shape| == 4 && np.shape[3] < MaxChannels && np.strides[3] == FloatBytes {
      ff.nChannels := np.shape[3];
    } else {
      return Some(BadChannelAxis);
    }
    return None;
  }

  /** `(FloatBytes * k) / FloatBytes == k`. */
  lemma FloatsOf(k: nat)
    ensures (FloatBytes * k) / FloatBytes == k
  {
  }

  /**
    A C-contiguous float array converts to a 2-D descriptor exactly when it has two axes, or a
    third of fewer than 8 channels; the descriptor then has the interleaved packed layout of
    `fastfilters_array2d_alloc` (pixel stride = channels, row stride = channels · columns).
  */
  lemma ContiguousConversion2d(np: Buffer)
    requires WellFormed(np) && np.strides == CStrides(np.shape)
    ensures ConversionError(np, 2) == None <==>
              |np.shape| == 2 || (|np.shape| == 3 && np.shape[2] < MaxChannels)
    ensures ConversionError(np, 2) == None ==>
              var c := ChannelCount(np, 2).value;
              np.strides[1] / FloatBytes == c && np.strides[0] / FloatBytes == c * np.shape[1]
  {
    var s := np.shape;
    if |s| == 2 {
      assert s == [s[0], s[1]];
      CStridesOfTwo(s[0], s[1]);
      FloatsOf(1);
      FloatsOf(s[1]);
    } else if |s| == 3 {
      assert s == [s[0], s[1], s[2]];
      CStridesOfThree(s[0], s[1], s[2]);
      FloatsOf(s[2]);
      FloatsOf(s[1] * s[2]);
    }
  }

  /**
    A C-contiguous float array converts to a 3-D descriptor exactly when it has three axes, or a
    fourth of fewer than 8 channels; the descriptor then steps channels, channels · columns and
    channels · columns · rows floats per column, row and plane.
  */
  lemma ContiguousConversion3d(np: Buffer)
    requires WellFormed(np) && np.strides == CStrides(np.shape)
    ensures ConversionError(np, 3) == None <==>
              |np.shape| == 3 || (|np.shape| == 4 && np.shape[3] < MaxChannels)
    ensures ConversionError(np, 3) == None ==>
              var c := ChannelCount(np, 3).value;
              && np.strides[2] / FloatBytes == c
              && np.strides[1] / FloatBytes == c * np.shape[2]
              && np.strides[0] / FloatBytes == c * np.shape[2] * np.shape[1]
  {
    var s := np.shape;
    if |s| == 3 {
      assert s == [s[0], s[1], s[2]];
      CStridesOfThree(s[0], s[1], s[2]);
      FloatsOf(1);
      FloatsOf(s[2]);
      FloatsOf(s[1] * s[2]);
    } else if |s| == 4 {
      assert s == [s[0], s[1], s[2], s[3]];
      CStridesOfFour(s[0], s[1], s[2], s[3]);
      FloatsOf(s[3]);
      FloatsOf(s[2] * s[3]);
      FloatsOf(s[1] * (s[2] * s[3]));
      assert s[1] * (s[2] * s[3]) == s[3] * s[2] * s[1];
    }
  }

  // ---------------------------------------------------------------------------------------
  // FIRKernel

  /** The Python `FIRKernel` object: a library kernel with the order and sigma it was made for. */
  class PyKernel {
    const kernel: FirKernel.Kernel
    const order: nat
    const sigma: real

    constructor (kernel: FirKernel.Kernel, order: nat, sigma: real)
      ensures this.kernel == kernel && this.order == order && this.sigma == sigma
    {
      this.kernel, this.order, this.sigma := kernel, order, sigma;
    }
  }

  /**
    The `FIRKernel` constructor: builds the kernel with window ratio 0 and throws exactly when
    the library returns NULL (order above 2, negative sigma or a failed allocation).
  */
  method NewPyKernel(heap: Heap, order: nat, sigma: real, lib: Libm) returns (r: Result<PyKernel, string>)
    requires heap.Valid() && heap.Ready()
    modifies heap`live, heap`outcomes
    ensures heap.Valid()
    ensures r.Err? <==>
              || order > 2 || sigma < 0.0
              || Outcome(old(heap.outcomes), 0) == Null || Outcome(old(heap.outcomes), 1) == Null
    ensures r.Err? ==> r.error == KernelNull && heap.live == old(heap.live)
    ensures r.Ok? ==>
              && fresh(r.value)
              && r.value.order == order && r.value.sigma == sigma
              && r.value.kernel.len == FirKernel.HalfLength(order, sigma, 0.0)
              && r.value.kernel.coefs[..] == FirKernel.Coefficients(order, sigma, r.value.kernel.len, lib)
  {
    var k := FirKernel.Gaussian(heap, order, sigma, 0.0, lib);
    if k == null {
      return Err(KernelNull);
    }
    var o := new PyKernel(k, order, sigma);
    return Ok(o);
  }

  // ---------------------------------------------------------------------------------------
  // convolve_fir

  /** The separable convolution `convolve_fir` runs, with its kernels in axis order. */
  datatype FirCall<K> = Fir2d(k0: K, k1: K) | Fir3d(k0: K, k1: K, k2: K)

  function Kernels<K>(c: FirCall<K>): seq<K>
  {
    match c
    case Fir2d(k0, k1) => [k0, k1]
    case Fir3d(k0, k1, k2) => [k0, k1, k2]
  }

  /**
    `convolve_fir`: two kernels convolve the input as a 2-D image, three as a volume, any other
    count throws; the input (and the output made like it) must convert, and a failing library
    call throws. `engine` is the library's verdict on a call.
  */
  function ConvolveFir<K>(input: Buffer, k: seq<K>, engine: FirCall<K> -> bool): (r: Result<FirCall<K>, string>)
    requires WellFormed(input)
    ensures r.Ok? ==> Kernels(r.value) == k && engine(r.value)
    ensures r.Ok? ==> ConversionError(input, |k|) == None
    ensures r == Err(BadKernelCount) <==> |k| != 2 && |k| != 3
    ensures (|k| == 2 || |k| == 3) && ConversionError(input, |k|).Some? ==>
              r == Err(ConversionError(input, |k|).value)
  {
    if |k| == 2 then
      if ConversionError(input, 2).Some? then Err(ConversionError(input, 2).value)
      else if !engine(Fir2d(k[0], k[1])) then Err(Convolve2dFailed)
      else Ok(Fir2d(k[0], k[1]))
    else if |k| == 3 then
      if ConversionError(input, 3).Some? then Err(ConversionError(input, 3).value)
      else if !engine(Fir3d(k[0], k[1], k[2])) then Err(Convolve3dFailed)
      else Ok(Fir3d(k[0], k[1], k[2]))
    else Err(BadKernelCount)
  }

  // ---------------------------------------------------------------------------------------
  // linalg_ev2d

  /**
    The library call `linalg_ev2d` makes: where the three rows of entries start, where the two
    result rows start (all in floats from their buffers), how many pixels, and the result's
    shape and byte strides.
  */
  datatype Ev2dCall = Ev2dCall(xx: nat, xy: nat, yy: nat, evSmall: nat, evBig: nat, len: nat,
                               outShape: seq<nat>, outStrides: seq<nat>)

  /**
    `linalg_ev2d`: a 3 × n matrix of rows xx, xy, yy gives a C-contiguous 2 × n result whose
    first row is passed as `ev_small` and second as `ev_big`; any other shape throws.
  */
  function LinalgEv2dBinding(mtx: Buffer): (r: Result<Ev2dCall, string>)
    requires WellFormed(mtx)
    ensures r.Err? <==> |mtx.shape| != 2 || mtx.shape[0] != 3
    ensures r.Err? ==> r.error == if |mtx.shape| != 2 then NotTwoDimensions else FirstNotThree
    ensures r.Ok? ==>
              && r.value.outShape == [2, mtx.shape[1]]
              && r.value.outStrides == CStrides(r.value.outShape)
              && r.value.len == mtx.shape[1]
              && r.value.xx == 0 && r.value.evSmall == 0
              && r.value.evBig == r.value.outStrides[0] / FloatBytes == r.value.len
  {
    if |mtx.shape| != 2 then Err(NotTwoDimensions)
    else if mtx.shape[0] != 3 then Err(FirstNotThree)
    else
      var n := mtx.shape[1];
      var outStrides := [FloatBytes * n, FloatBytes];
      assert [2, n][1..] == [n] && [2, n][2..] == [];
      assert Product([n]) == n;
      FloatsOf(n);
      Ok(Ev2dCall(0, mtx.strides[0] / FloatBytes, 2 * mtx.strides[0] / FloatBytes,
                  0, outStrides[0] / FloatBytes, n, [2, n], outStrides))
  }

  /**
    When the row stride is a whole number of floats, the three entry rows handed to the library
    are rows 0, 1 and 2 of the matrix.
  */
  lemma Ev2dRowsOfMatrix(mtx: Buffer)
    requires WellFormed(mtx) && LinalgEv2dBinding(mtx).Ok?
    requires mtx.strides[0] % FloatBytes == 0
    ensures var c := LinalgEv2dBinding(mtx).value;
            c.xx == 0 && c.xy == mtx.strides[0] / FloatBytes && c.yy == 2 * (mtx.strides[0] / FloatBytes)
  {
    var q := mtx.strides[0] / FloatBytes;
    assert mtx.strides[0] == FloatBytes * q;
    assert 2 * mtx.strides[0] == FloatBytes * (2 * q);
    FloatsOf(2 * q);
  }

  /**
    The column stride is never consulted: the library reads entry j of each row as the j-th
    float after the row's start, so a matrix whose columns are not adjacent floats is read as
    if they were.
  */
  lemma Ev2dIgnoresColumnStride(mtx: Buffer, columnStride: nat)
    requires WellFormed(mtx) && |mtx.shape| == 2
    ensures LinalgEv2dBinding(mtx.(strides := [mtx.strides[0], columnStride])) == LinalgEv2dBinding(mtx)
  {
  }

  // ---------------------------------------------------------------------------------------
  // Results of the eigenvalue bindings

  /**
    The result shape of `filter_ev_2d_binding`: the two eigenvalue components first, then rows,
    columns, and channels when there is more than one.
  */
  function EvShape2d(nX: nat, nY: nat, nChannels: nat): (r: seq<nat>)
    ensures |r| in {3, 4} && (|r| == 4 <==> nChannels != 1)
    ensures r[0] == 2 && r[1..3] == [nY, nX] && (|r| == 4 ==> r[3] == nChannels)
    ensures Product(r[1..]) == nX * nY * nChannels
  {
    if nChannels == 1 then
      ProductOfTwo(nY, nX);
      assert [2, nY, nX][1..] == [nY, nX];
      [2, nY, nX]
    else
      ProductOfThree(nY, nX, nChannels);
      assert [2, nY, nX, nChannels][1..] == [nY, nX, nChannels];
      [2, nY, nX, nChannels]
  }

  /** The result shape of `filter_ev_3d_binding`: three components, planes, rows, columns, channels. */
  function EvShape3d(nX: nat, nY: nat, nZ: nat, nChannels: nat): (r: seq<nat>)
    ensures |r| in {4, 5} && (|r| == 5 <==> nChannels != 1)
    ensures r[0] == 3 && r[1..4] == [nZ, nY, nX] && (|r| == 5 ==> r[4] == nChannels)
    ensures Product(r[1..]) == nZ * nX * nY * nChannels
  {
    if nChannels == 1 then
      ProductOfThree(nZ, nY, nX);
      assert [3, nZ, nY, nX][1..] == [nZ, nY, nX];
      [3, nZ, nY, nX]
    else
      ProductOfFour(nZ, nY, nX, nChannels);
      assert [3, nZ, nY, nX, nChannels][1..] == [nZ, nY, nX, nChannels];
      [3, nZ, nY, nX, nChannels]
  }

  lemma ProductOfTwo(a: nat, b: nat)
    ensures Product([a, b]) == a * b
  {
    assert [a, b][1..] == [b] && [b][1..] == [];
    assert Product([b]) == b;
  }

  lemma ProductOfThree(a: nat, b: nat, c: nat)
    ensures Product([a, b, c]) == a * (b * c)
  {
    assert [a, b, c][1..] == [b, c];
    ProductOfTwo(b, c);
  }

  lemma ProductOfFour(a: nat, b: nat, c: nat, d: nat)
    ensures Product([a, b, c, d]) == a * (b * (c * d))
  {
    assert [a, b, c, d][1..] == [b, c, d];
    ProductOfThree(b, c, d);
  }

  /**
    The shape and strides `filter_ev_2d_binding` pushes for its result: the result is
    C-contiguous, so component k starts k · nPixels floats in, the offset the binding hands to
    the solver for `ev_big`.
  */
  method EvLayout2d(nX: nat, nY: nat, nChannels: nat) returns (shape: seq<nat>, strides: seq<nat>, nPixels: nat)
    ensures shape == EvShape2d(nX, nY, nChannels)
    ensures strides == CStrides(shape)
    ensures nPixels == Product(shape[1..]) && strides[0] == FloatBytes * nPixels
  {
    nPixels := nX * nY * nChannels;
    shape, strides := [], [];
    if nChannels == 1 {
      shape := shape + [2];
      shape := shape + [nY];
      shape := shape + [nX];
      strides := strides + [FloatBytes * nY * nX];
      strides := strides + [FloatBytes * nX];
      strides := strides + [FloatBytes];
    } else {
      shape := shape + [2];
      shape := shape + [nY];
      shape := shape + [nX];
      shape := shape + [nChannels];
      strides := strides + [FloatBytes * nChannels * nY * nX];
      strides := strides + [FloatBytes * nChannels * nX];
      strides := strides + [FloatBytes * nChannels];
      strides := strides + [FloatBytes];
    }
    ContiguousTail2d(shape, strides, nX, nY, nChannels);
  }

  /** The strides pushed by `filter_ev_2d_binding` are the C-contiguous ones. */
  lemma ContiguousTail2d(shape: seq<nat>, strides: seq<nat>, nX: nat, nY: nat, nChannels: nat)
    requires shape == (if nChannels == 1 then [2, nY, nX] else [2, nY, nX, nChannels])
    requires strides == (if nChannels == 1 then [FloatBytes * nY * nX, FloatBytes * nX, FloatBytes]
                         else [FloatBytes * nChannels * nY * nX, FloatBytes * nChannels * nX,
                               FloatBytes * nChannels, FloatBytes])
    ensures shape == EvShape2d(nX, nY, nChannels) && strides == CStrides(shape)
    ensures strides[0] == FloatBytes * (nX * nY * nChannels)
  {
    if nChannels == 1 {
      CStridesOfThree(2, nY, nX);
    } else {
      CStridesOfFour(2, nY, nX, nChannels);
      assert FloatBytes * nChannels * nY * nX == FloatBytes * (nY * (nX * nChannels));
      assert FloatBytes * nChannels * nX == FloatBytes * (nX * nChannels);
    }
  }

  /**
    The shape and strides `filter_ev_3d_binding` pushes for its result: C-contiguous, so
    component k starts k · nPixels floats in, where the binding hands `ev1` and `ev2` out.
  */
  method EvLayout3d(nX: nat, nY: nat, nZ: nat, nChannels: nat)
    returns (shape: seq<nat>, strides: seq<nat>, nPixels: nat)
    ensures shape == EvShape3d(nX, nY, nZ, nChannels)
    ensures strides == CStrides(shape)
    ensures nPixels == Product(shape[1..]) && strides[0] == FloatBytes * nPixels
  {
    nPixels := nZ * nX * nY * nChannels;
    shape, strides := [], [];
    if nChannels == 1 {
      shape := shape + [3];
      shape := shape + [nZ];
      shape := shape + [nY];
      shape := shape + [nX];
      strides := strides + [FloatBytes * nZ * nY * nX];
      strides := strides + [FloatBytes * nY * nX];
      strides := strides + [FloatBytes * nX];
      strides := strides + [FloatBytes];
    } else {
      shape := shape + [3];
      shape := shape + [nZ];
      shape := shape + [nY];
      shape := shape + [nX];
      shape := shape + [nChannels];
      strides := strides + [FloatBytes * nChannels * nX * nY * nZ];
      strides := strides + [FloatBytes * nChannels * nX * nY];
      strides := strides + [FloatBytes * nChannels * nX];
      strides := strides + [FloatBytes * nChannels];
      strides := strides + [FloatBytes];
    }
    ContiguousTail3d(shape, strides, nX, nY, nZ, nChannels);
  }

  /** The strides pushed by `filter_ev_3d_binding` are the C-contiguous ones. */
  lemma ContiguousTail3d(shape: seq<nat>, strides: seq<nat>, nX: nat, nY: nat, nZ: nat, nChannels: nat)
    requires shape == (if nChannels == 1 then [3, nZ, nY, nX] else [3, nZ, nY, nX, nChannels])
    requires strides == (if nChannels == 1
                         then [FloatBytes * nZ * nY * nX, FloatBytes * nY * nX, FloatBytes * nX, FloatBytes]
                         else [FloatBytes * nChannels * nX * nY * nZ, FloatBytes * nChannels * nX * nY,
                               FloatBytes * nChannels * nX, FloatBytes * nChannels, FloatBytes])
    ensures shape == EvShape3d(nX, nY, nZ, nChannels) && strides == CStrides(shape)
    ensures strides[0] == FloatBytes * (nZ * nX * nY * nChannels)
  {
    if nChannels == 1 {
      CStridesOfFour(3, nZ, nY, nX);
      PlaneStrides(nZ, nY, nX);
    } else {
      CStridesOfFive(3, nZ, nY, nX, nChannels);
      ChannelPlaneStrides(nZ, nY, nX, nChannels);
    }
  }

  lemma PlaneStrides(z: nat, y: nat, x: nat)
    ensures FloatBytes * z * y * x == FloatBytes * (z * (y * x)) == FloatBytes * (z * x * y * 1)
    ensures FloatBytes * y * x == FloatBytes * (y * x)
  {
  }

  lemma ChannelPlaneStrides(z: nat, y: nat, x: nat, c: nat)
    ensures FloatBytes * c * x * y * z == FloatBytes * (z * (y * (x * c))) == FloatBytes * (z * x * y * c)
    ensures FloatBytes * c * x * y == FloatBytes * (y * (x * c))
    ensures FloatBytes * c * x == FloatBytes * (x * c)
  {
  }

  /**
    The matrix `filter_ev_3d_binding` hands the solver at one pixel: it passes
    (zz, yz, xz, yy, xy, xx) as (a00, a01, a02, a11, a12, a22), the Hessian with its axes listed
    z, y, x.
  */
  function SolverMatrix(xx: real, yy: real, zz: real, xy: real, xz: real, yz: real): Linalg.Sym3
  {
    Linalg.Sym3(zz, yz, xz, yy, xy, xx)
  }

  /**
    Listing the axes z, y, x instead of x, y, z relabels the matrix without changing it: the
    solver returns the same eigenvalues, largest first, as for the x, y, z order.
  */
  lemma SolverOrderConsistent(lib: Libm, xx: real, yy: real, zz: real, xy: real, xz: real, yz: real)
    ensures Linalg.Ev3dPixel(lib, SolverMatrix(xx, yy, zz, xy, xz, yz)) ==
            Linalg.Ev3dPixel(lib, Linalg.Sym3(xx, xy, xz, yy, yz, zz))
    ensures Linalg.Descending(Linalg.Ev3dPixel(lib, SolverMatrix(xx, yy, zz, xy, xz, yz)))
  {
    var m := SolverMatrix(xx, yy, zz, xy, xz, yz);
    var n := Linalg.Sym3(xx, xy, xz, yy, yz, zz);
    var me := Linalg.MaxElement(n);
    MaxElementRelabelled(m, n);
    if me != 0.0 {
      ScaledRelabelled(m, n, 1.0 / me);
      CharacteristicRelabelled(Linalg.ScaleMatrix(m, 1.0 / me), Linalg.ScaleMatrix(n, 1.0 / me));
    }
    SameSpectrum(lib, m, n);
    Linalg.Ev3dDescending(lib, m);
  }

  /** Two matrices with the same largest entry and the same scaled characteristic polynomial get the same result. */
  lemma SameSpectrum(lib: Libm, m: Linalg.Sym3, n: Linalg.Sym3)
    requires Linalg.MaxElement(m) == Linalg.MaxElement(n)
    requires Linalg.MaxElement(n) != 0.0 ==>
               Linalg.CharacteristicOf(Linalg.ScaleMatrix(m, 1.0 / Linalg.MaxElement(n))) ==
               Linalg.CharacteristicOf(Linalg.ScaleMatrix(n, 1.0 / Linalg.MaxElement(n)))
    ensures Linalg.Ev3dPixel(lib, m) == Linalg.Ev3dPixel(lib, n)
  {
  }

  /** The largest absolute entry does not depend on the order the axes are listed in. */
  lemma MaxElementRelabelled(m: Linalg.Sym3, n: Linalg.Sym3)
    requires m == Linalg.Sym3(n.a22, n.a12, n.a02, n.a11, n.a01, n.a00)
    ensures Linalg.MaxElement(m) == Linalg.MaxElement(n)
  {
  }

  /** Scaling commutes with relabelling the axes. */
  lemma ScaledRelabelled(m: Linalg.Sym3, n: Linalg.Sym3, s: real)
    requires m == Linalg.Sym3(n.a22, n.a12, n.a02, n.a11, n.a01, n.a00)
    ensures var sn := Linalg.ScaleMatrix(n, s);
            Linalg.ScaleMatrix(m, s) == Linalg.Sym3(sn.a22, sn.a12, sn.a02, sn.a11, sn.a01, sn.a00)
  {
  }

  /** The characteristic polynomial does not depend on the order the axes are listed in. */
  lemma CharacteristicRelabelled(m: Linalg.Sym3, n: Linalg.Sym3)
    requires m == Linalg.Sym3(n.a22, n.a12, n.a02, n.a11, n.a01, n.a00)
    ensures Linalg.CharacteristicOf(m) == Linalg.CharacteristicOf(n)
  {
  }
}
