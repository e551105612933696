/**
  The 2-D driver of `src/fir_convolve.c`: `fastfilters_fir_init` binds the two pass pointers,
  and `fastfilters_fir_convolve2d` runs a horizontal pass from the input image into the output
  buffer and then, if it succeeded, a vertical pass over the output buffer in place.

  Which definitions the two pointers reach is not part of this model (the declarations and the
  definitions of the pass functions disagree in their parameter lists), so a pass is described
  by its effect: a function from its scalar arguments and the contents of its input and output
  buffers to its result and the output buffer's new contents.
*/
module FirConvolve {
  import opened Wrappers
  import opened BorderTreatment
  import opened Array2d

  /** A kernel as a pass sees it. */
  datatype KernelArg = KernelArg(len: nat, symmetric: bool, coefs: seq<real>)

  /** The scalar arguments of a pass call. */
  datatype PassArgs = PassArgs(nPixels: nat, pixelStride: nat, nOuter: nat, outerStride: nat,
                               kernel: KernelArg, left: Border, right: Border)

  /** What a pass returns and leaves in its output buffer. */
  datatype PassResult = PassResult(ok: bool, out: seq<real>)

  /** The two functions the pointers can be bound to. */
  datatype PassName = ConvolveFirInner | ConvolveFirOuter

  /** The effect of each of the two pass functions. */
  datatype Passes = Passes(inner: (PassArgs, seq<real>, seq<real>) -> PassResult,
                           outer: (PassArgs, seq<real>, seq<real>) -> PassResult)

  /** The effect of the function a pointer names. */
  function Effect(p: Passes, name: PassName): (PassArgs, seq<real>, seq<real>) -> PassResult
  {
    match name {
      case ConvolveFirInner => p.inner
      case ConvolveFirOuter => p.outer
    }
  }

  /** A pass leaves an output buffer of the length it was given. */
  ghost predicate KeepsLength(f: (PassArgs, seq<real>, seq<real>) -> PassResult)
  {
    forall a: PassArgs, x: seq<real>, y: seq<real> :: |f(a, x, y).out| == |y|
  }

  /** The image geometry the driver reads from the input descriptor. */
  datatype Geometry = Geometry(nX: nat, nY: nat, strideX: nat, strideY: nat)

  function GeometryOf(a: Image): Geometry
    reads a
  {
    Geometry(a.nX, a.nY, a.strideX, a.strideY)
  }

  /** The horizontal pass: n_x pixels of stride_x per line, n_y lines of stride_y, mirrored. */
  function HorizontalArgs(g: Geometry, kx: KernelArg): (a: PassArgs)
    ensures a.left == Mirror && a.right == Mirror && a.kernel == kx
  {
    PassArgs(g.nX, g.strideX, g.nY, g.strideY, kx, Mirror, Mirror)
  }

  /** The vertical pass: the roles of the two axes swapped. */
  function VerticalArgs(g: Geometry, ky: KernelArg): (a: PassArgs)
    ensures a.left == Mirror && a.right == Mirror && a.kernel == ky
  {
    PassArgs(g.nY, g.strideY, g.nX, g.strideX, ky, Mirror, Mirror)
  }

  /**
    The whole-image filter: horizontal pass from `inp` into `out`; on failure its result; on
    success the vertical pass reading and writing the buffer the first pass left.
  */
  function Filter2d(inner: (PassArgs, seq<real>, seq<real>) -> PassResult,
                    outer: (PassArgs, seq<real>, seq<real>) -> PassResult,
                    g: Geometry, inp: seq<real>, out: seq<real>, kx: KernelArg, ky: KernelArg): PassResult
  {
    var h := inner(HorizontalArgs(g, kx), inp, out);
    if !h.ok then h else outer(VerticalArgs(g, ky), h.out, h.out)
  }

  /** With passes that keep their output's length, so does the filter. */
  lemma Filter2dLength(inner: (PassArgs, seq<real>, seq<real>) -> PassResult,
                       outer: (PassArgs, seq<real>, seq<real>) -> PassResult,
                       g: Geometry, inp: seq<real>, out: seq<real>, kx: KernelArg, ky: KernelArg)
    requires KeepsLength(inner) && KeepsLength(outer)
    ensures |Filter2d(inner, outer, g, inp, out, kx, ky).out| == |out|
  {
  }

  /** A failed horizontal pass is the filter's result: the vertical pass does not run. */
  lemma HorizontalFailureStops(inner: (PassArgs, seq<real>, seq<real>) -> PassResult,
                               outer: (PassArgs, seq<real>, seq<real>) -> PassResult,
                               g: Geometry, inp: seq<real>, out: seq<real>, kx: KernelArg, ky: KernelArg)
    requires !inner(HorizontalArgs(g, kx), inp, out).ok
    ensures !Filter2d(inner, outer, g, inp, out, kx, ky).ok
    ensures Filter2d(inner, outer, g, inp, out, kx, ky) == inner(HorizontalArgs(g, kx), inp, out)
  {
  }

  /**
    On success the result is the vertical pass's, run with the horizontal pass's output as both
    its input and its output.
  */
  lemma VerticalPassInPlace(inner: (PassArgs, seq<real>, seq<real>) -> PassResult,
                            outer: (PassArgs, seq<real>, seq<real>) -> PassResult,
                            g: Geometry, inp: seq<real>, out: seq<real>, kx: KernelArg, ky: KernelArg)
    requires inner(HorizontalArgs(g, kx), inp, out).ok
    ensures var h := inner(HorizontalArgs(g, kx), inp, out);
            Filter2d(inner, outer, g, inp, out, kx, ky) == outer(VerticalArgs(g, ky), h.out, h.out)
  {
  }

  /**
    An outer pass that reports failure on every call, as the scalar outer variant does, makes
    every whole-image filter report failure, after the vertical pass has written its output.
  */
  lemma FailingOuterFailsFilter(inner: (PassArgs, seq<real>, seq<real>) -> PassResult,
                                outer: (PassArgs, seq<real>, seq<real>) -> PassResult,
                                g: Geometry, inp: seq<real>, out: seq<real>, kx: KernelArg, ky: KernelArg)
    requires forall a: PassArgs, x: seq<real>, y: seq<real> :: !outer(a, x, y).ok
    ensures !Filter2d(inner, outer, g, inp, out, kx, ky).ok
    ensures inner(HorizontalArgs(g, kx), inp, out).ok ==>
              var h := inner(HorizontalArgs(g, kx), inp, out);
              Filter2d(inner, outer, g, inp, out, kx, ky).out == outer(VerticalArgs(g, ky), h.out, h.out).out
  {
  }

  /** A pass with the output of the given one that reports failure, as the scalar outer variant does. */
  function ReportingFailure(pass: (PassArgs, seq<real>, seq<real>) -> PassResult): (PassArgs, seq<real>, seq<real>) -> PassResult
  {
    (a: PassArgs, x: seq<real>, y: seq<real>) => PassResult(false, pass(a, x, y).out)
  }

  /**
    With the outer pass returning false after its work, the filter reports failure whatever the
    passes compute, and once the horizontal pass succeeds it leaves exactly the output of the
    filter with the outer pass reporting its success.
  */
  lemma AsWrittenOuterFailsFilter(inner: (PassArgs, seq<real>, seq<real>) -> PassResult,
                                  outer: (PassArgs, seq<real>, seq<real>) -> PassResult,
                                  g: Geometry, inp: seq<real>, out: seq<real>, kx: KernelArg, ky: KernelArg)
    ensures !Filter2d(inner, ReportingFailure(outer), g, inp, out, kx, ky).ok
    ensures inner(HorizontalArgs(g, kx), inp, out).ok ==>
              Filter2d(inner, ReportingFailure(outer), g, inp, out, kx, ky).out ==
              Filter2d(inner, outer, g, inp, out, kx, ky).out
  {
    FailingOuterFailsFilter(inner, ReportingFailure(outer), g, inp, out, kx, ky);
  }

  /** A region of interest: all four corners 0 means the whole image. */
  predicate WholeImage(x0: nat, y0: nat, x1: nat, y1: nat)
  {
    x0 == 0 && y0 == 0 && x1 == 0 && y1 == 0
  }

  /** The pass pointers `g_convolve_inner` and `g_convolve_outer`; None is NULL. */
  class Driver {
    var convolveInner: Option<PassName>
    var convolveOuter: Option<PassName>

    /** Both pointers start NULL. */
    constructor ()
      ensures convolveInner == None && convolveOuter == None
    {
      convolveInner, convolveOuter := None, None;
    }

    /** The pointers are bound, as after `fastfilters_fir_init`. */
    predicate Bound()
      reads this
    {
      convolveInner.Some? && convolveOuter.Some?
    }

    /** `fastfilters_fir_init`: binds the outer and the inner pass. */
    method Init()
      modifies this
      ensures convolveInner == Some(ConvolveFirInner) && convolveOuter == Some(ConvolveFirOuter)
      ensures Bound()
    {
      convolveOuter := Some(ConvolveFirOuter);
      convolveInner := Some(ConvolveFirInner);
    }

    /** The effect of the bound inner pass. */
    function InnerEffect(p: Passes): (PassArgs, seq<real>, seq<real>) -> PassResult
      reads this
      requires Bound()
    {
      Effect(p, convolveInner.value)
    }

    /** The effect of the bound outer pass. */
    function OuterEffect(p: Passes): (PassArgs, seq<real>, seq<real>) -> PassResult
      reads this
      requires Bound()
    {
      Effect(p, convolveOuter.value)
    }

    /**
      `fastfilters_fir_convolve2d`: any non-zero corner returns false without writing; the
      whole image runs `Filter2d` through the bound pointers, whose result and output buffer
      are the call's.
    */
    method Convolve2d(p: Passes, inp: Image, kx: KernelArg, ky: KernelArg, out: array<real>,
                      x0: nat, y0: nat, x1: nat, y1: nat)
      returns (ok: bool)
      requires Bound() && KeepsLength(InnerEffect(p)) && KeepsLength(OuterEffect(p))
      modifies out
      ensures !WholeImage(x0, y0, x1, y1) ==> !ok && out[..] == old(out[..])
      ensures WholeImage(x0, y0, x1, y1) ==>
                var r := Filter2d(InnerEffect(p), OuterEffect(p), GeometryOf(inp), old(inp.data[..]),
                                  old(out[..]), kx, ky);
                ok == r.ok && out[..] == r.out
    {
      if !WholeImage(x0, y0, x1, y1) {
        return false;
      }
      var g := GeometryOf(inp);
      var f := InnerEffect(p);
      var h := f(HorizontalArgs(g, kx), inp.data[..], out[..]);
      Store(out, h.out);
      if !h.ok {
        return false;
      }
      var v := OuterEffect(p)(VerticalArgs(g, ky), out[..], out[..]);
      Store(out, v.out);
      ok := v.ok;
    }
  }

  /** The pass's writes: the output buffer takes the contents the pass leaves. */
  method Store(out: array<real>, s: seq<real>)
    requires |s| == out.Length
    modifies out
    ensures out[..] == s
  {
    forall i | 0 <= i < out.Length {
      out[i] := s[i];
    }
  }
}
