/**
  The strided scalar lines of `src/convolve_fir_nosimd.cxx`: the same three loops as
  `src/convolve_fir.cxx`, with lines `dim_stride` apart and, in the outer variant, pixels
  `pixel_stride` apart.
*/
module ConvolveFirNosimd {
  import opened Strided
  import opened ConvolveFir

  /** Inner variant: line i at `i * dim_stride`, pixels one apart, in input and output alike. */
  function InnerLayout(dimStride: nat): Layout
  {
    Layout(0, dimStride, 1)
  }

  /** Outer variant, input: line i at `i`, pixels `pixel_stride` apart. */
  function OuterInLayout(pixelStride: nat): Layout
  {
    Layout(0, 1, pixelStride)
  }

  /** Outer variant, output: line i at `i * dim_stride`, pixels `pixel_stride` apart. */
  function OuterOutLayout(pixelStride: nat, dimStride: nat): Layout
  {
    Layout(0, dimStride, pixelStride)
  }

  /** `convolve_fir_inner_single_noavx`. */
  method InnerSingleNoavx(inp: array<real>, n: nat, nTimes: nat, dimStride: nat, out: array<real>, w: seq<real>)
    requires inp != out && |w| <= n
    requires n >= 1 ==> Holds(inp.Length, InnerLayout(dimStride), nTimes, 0, n - 1)
    requires n >= 1 ==> Holds(out.Length, InnerLayout(dimStride), nTimes, 0, n - 1)
    modifies out
    ensures out[..] == WriteLines(old(out[..]), InnerLayout(dimStride), n,
                                  AllOutputs(inp[..], InnerLayout(dimStride), nTimes, n, w), nTimes)
  {
    ConvolveLines(inp, InnerLayout(dimStride), out, InnerLayout(dimStride), nTimes, n, w);
  }

  /** `convolve_fir_outer_single_noavx`. */
  method OuterSingleNoavx(inp: array<real>, n: nat, pixelStride: nat, nTimes: nat, dimStride: nat,
                          out: array<real>, w: seq<real>)
    requires inp != out && |w| <= n
    requires n >= 1 ==> Holds(inp.Length, OuterInLayout(pixelStride), nTimes, 0, n - 1)
    requires n >= 1 ==> Holds(out.Length, OuterOutLayout(pixelStride, dimStride), nTimes, 0, n - 1)
    modifies out
    ensures out[..] == WriteLines(old(out[..]), OuterOutLayout(pixelStride, dimStride), n,
                                  AllOutputs(inp[..], OuterInLayout(pixelStride), nTimes, n, w), nTimes)
  {
    ConvolveLines(inp, OuterInLayout(pixelStride), out, OuterOutLayout(pixelStride, dimStride), nTimes, n, w);
  }

  /** With lines at least a line length apart, pixel j of output line i holds output j of line i. */
  lemma InnerNoavxReadBack(buf: seq<real>, s: seq<real>, n: nat, nTimes: nat, dimStride: nat, w: seq<real>,
                           i: nat, j: nat)
    requires dimStride >= n && i < nTimes && j < n
    requires 0 <= Addr(LineOf(InnerLayout(dimStride), i), j) < |buf|
    ensures WriteLines(buf, InnerLayout(dimStride), n, AllOutputs(s, InnerLayout(dimStride), nTimes, n, w), nTimes)
              [Addr(LineOf(InnerLayout(dimStride), i), j)]
            == Output(Samples(s, LineOf(InnerLayout(dimStride), i), n), w, n, j)
  {
    RowMajorSeparate(InnerLayout(dimStride), nTimes, n);
    ReadBack(buf, InnerLayout(dimStride), n, AllOutputs(s, InnerLayout(dimStride), nTimes, n, w), nTimes, i, j);
  }

  /**
    The outer variant reads line i at `input + i` but stores it at `output + i * dim_stride`:
    unless dim_stride is 1, an output pixel of line 1 onwards lands elsewhere than the input
    pixel it is computed for.
  */
  lemma OuterNoavxMovesLines(pixelStride: nat, dimStride: nat, i: nat, j: nat)
    requires i >= 1
    ensures Addr(LineOf(OuterOutLayout(pixelStride, dimStride), i), j) == Addr(LineOf(OuterInLayout(pixelStride), i), j)
            <==> dimStride == 1
  {
    if dimStride != 1 {
      assert dimStride * i != 1 * i by {
        if dimStride * i == 1 * i {
          MulCancel(i, dimStride, 1);
        }
      }
    }
  }

  /** Both lines strided alike: interleaved input lines whose outputs are interleaved too. */
  lemma OuterNoavxReadBack(buf: seq<real>, s: seq<real>, n: nat, pixelStride: nat, nTimes: nat, w: seq<real>,
                           i: nat, j: nat)
    requires pixelStride >= nTimes && i < nTimes && j < n
    requires 0 <= Addr(LineOf(OuterOutLayout(pixelStride, 1), i), j) < |buf|
    ensures WriteLines(buf, OuterOutLayout(pixelStride, 1), n,
                       AllOutputs(s, OuterInLayout(pixelStride), nTimes, n, w), nTimes)
              [Addr(LineOf(OuterOutLayout(pixelStride, 1), i), j)]
            == Output(Samples(s, LineOf(OuterInLayout(pixelStride), i), n), w, n, j)
  {
    ColumnMajorSeparate(OuterOutLayout(pixelStride, 1), nTimes, n);
    ReadBack(buf, OuterOutLayout(pixelStride, 1), n, AllOutputs(s, OuterInLayout(pixelStride), nTimes, n, w), nTimes, i, j);
  }
}
