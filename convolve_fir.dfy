/**
  The full-kernel scalar line convolution of `src/convolve_fir.cxx` (and, with other strides,
  of `src/convolve_fir_nosimd.cxx`): output j of a line is Σ_k kernel[k] · x[j + kreal] with
  kreal = k - kernel_len / 2, where the two border loops replace a tap that falls outside the
  line by j - kreal.
*/
module ConvolveFir {
  import opened Strided
  import FirConvolveNosimdImpl

  /** `kernel_len / 2`. */
  function Half(len: nat): nat
  {
    len / 2
  }

  /** The pixel the left border loop reads for offset t (`kreal`) around output j. */
  function LeftLoopTap(j: nat, t: int): int
  {
    if t + j < 0 then j - t else j + t
  }

  /** The pixel the right border loop reads. */
  function RightLoopTap(n: nat, j: nat, t: int): int
  {
    if t + j >= n then j - t else j + t
  }

  /** Which of the three loops computes output j: left border, full line, or right border. */
  datatype Region = LeftBorder | FullLine | RightBorder

  function RegionOf(n: nat, len: nat, j: nat): Region
  {
    if j < Half(len) then LeftBorder else if j < n - Half(len) then FullLine else RightBorder
  }

  /** The pixel read for tap k around output j by the loop that computes output j. */
  function LoopTap(n: nat, len: nat, j: nat, k: nat): int
  {
    var t := k - Half(len);
    match RegionOf(n, len, j)
    case LeftBorder => LeftLoopTap(j, t)
    case FullLine => j + t
    case RightBorder => RightLoopTap(n, j, t)
  }

  /** The rule the three loops share: a tap j + t outside [0, n) is replaced by j - t. */
  function MirrorTap(n: nat, j: nat, t: int): int
  {
    if 0 <= j + t < n then j + t else j - t
  }

  /** The pixels the k loop reads for output j, tap by tap. */
  function Taps(n: nat, len: nat, j: nat): (r: seq<int>)
    ensures |r| == len
  {
    seq(len, k requires 0 <= k < len => LoopTap(n, len, j, k))
  }

  /** Σ_{k < m} kernel[k] · x[taps[k]] as the k loop accumulates it. */
  function Acc(x: seq<real>, w: seq<real>, taps: seq<int>, m: nat): real
    requires m <= |w| && m <= |taps|
  {
    if m == 0 then 0.0 else Acc(x, w, taps, m - 1) + w[m - 1] * At(x, taps[m - 1])
  }

  /** Output j of a line x of n pixels. */
  function Output(x: seq<real>, w: seq<real>, n: nat, j: nat): real
  {
    Acc(x, w, Taps(n, |w|, j), |w|)
  }

  // What the loops compute.

  /**
    When the kernel is no longer than the line, every loop reads pixel MirrorTap(j + kreal),
    and that pixel lies inside the line.
  */
  lemma LoopTapIsMirrorTap(n: nat, len: nat, j: nat, k: nat)
    requires len <= n && j < n && k < len
    ensures LoopTap(n, len, j, k) == MirrorTap(n, j, k - Half(len))
    ensures 0 <= LoopTap(n, len, j, k) < n
  {
  }

  /** The j - kreal replacement agrees with reflect-101 at the first pixel of the line. */
  lemma MirrorTapAtStartIsReflect101(n: nat, t: int)
    requires -(n as int) < t < n
    ensures MirrorTap(n, 0, t) == FirConvolveNosimdImpl.Reflect101(n, t)
  {
  }

  /**
    Elsewhere it does not: for a line of 5 pixels and a kernel of length 5, tap k = 0 of
    output 1 reads pixel 3 where reflect-101 reads pixel 1.
  */
  lemma MirrorTapIsNotReflect101()
    ensures LoopTap(5, 5, 1, 0) == 3
    ensures FirConvolveNosimdImpl.Reflect101(5, 1 + (0 - Half(5))) == 1
  {
  }

  /** Line z is x + y, pixel by pixel. */
  predicate IsSum(z: seq<real>, x: seq<real>, y: seq<real>)
  {
    |z| == |x| == |y| && forall i | 0 <= i < |z| :: z[i] == x[i] + y[i]
  }

  /** Line z is a·x, pixel by pixel. */
  predicate IsScaled(z: seq<real>, a: real, x: seq<real>)
  {
    |z| == |x| && forall i | 0 <= i < |z| :: z[i] == a * x[i]
  }

  lemma {:induction false} AccAdditive(z: seq<real>, x: seq<real>, y: seq<real>, w: seq<real>, taps: seq<int>, m: nat)
    requires IsSum(z, x, y) && m <= |w| && m <= |taps|
    ensures Acc(z, w, taps, m) == Acc(x, w, taps, m) + Acc(y, w, taps, m)
  {
    if m > 0 {
      AccAdditive(z, x, y, w, taps, m - 1);
      assert At(z, taps[m - 1]) == At(x, taps[m - 1]) + At(y, taps[m - 1]);
    }
  }

  lemma {:induction false} AccHomogeneous(z: seq<real>, a: real, x: seq<real>, w: seq<real>, taps: seq<int>, m: nat)
    requires IsScaled(z, a, x) && m <= |w| && m <= |taps|
    ensures Acc(z, w, taps, m) == a * Acc(x, w, taps, m)
  {
    if m > 0 {
      AccHomogeneous(z, a, x, w, taps, m - 1);
      assert At(z, taps[m - 1]) == a * At(x, taps[m - 1]);
    }
  }

  /** Every output is linear in the line: additive and homogeneous. */
  lemma OutputLinear(z: seq<real>, x: seq<real>, y: seq<real>, u: seq<real>, a: real, w: seq<real>, n: nat, j: nat)
    ensures IsSum(z, x, y) ==> Output(z, w, n, j) == Output(x, w, n, j) + Output(y, w, n, j)
    ensures IsScaled(u, a, x) ==> Output(u, w, n, j) == a * Output(x, w, n, j)
  {
    if IsSum(z, x, y) {
      AccAdditive(z, x, y, w, Taps(n, |w|, j), |w|);
    }
    if IsScaled(u, a, x) {
      AccHomogeneous(u, a, x, w, Taps(n, |w|, j), |w|);
    }
  }

  lemma {:induction false} AccOfZero(x: seq<real>, w: seq<real>, taps: seq<int>, m: nat)
    requires m <= |w| && m <= |taps| && forall i | 0 <= i < |x| :: x[i] == 0.0
    ensures Acc(x, w, taps, m) == 0.0
  {
    if m > 0 {
      AccOfZero(x, w, taps, m - 1);
    }
  }

  /** An all-zero line gives an all-zero output. */
  lemma OutputOfZero(x: seq<real>, w: seq<real>, n: nat, j: nat)
    requires forall i | 0 <= i < |x| :: x[i] == 0.0
    ensures Output(x, w, n, j) == 0.0
  {
    AccOfZero(x, w, Taps(n, |w|, j), |w|);
  }

  // The loops.

  /** Reads pixel p of a line. */
  method ReadSample(inp: array<real>, line: Line, n: nat, p: int, ghost x: seq<real>) returns (sample: real)
    requires 0 <= p < n && Addr(line, 0) >= 0 && Addr(line, n - 1) < inp.Length
    requires x == Samples(inp[..], line, n)
    ensures sample == At(x, p)
  {
    AddrWithin(line, 0, p, n - 1);
    sample := inp[line.off + p * line.stride];
  }

  /** The index expression `j ± kreal` of the loop `region` for tap k. */
  method TapIndex(n: nat, len: nat, j: nat, k: nat, region: Region) returns (p: int)
    requires len <= n && j < n && k < len && region == RegionOf(n, len, j)
    ensures p == LoopTap(n, len, j, k) && 0 <= p < n
  {
    var kreal := k - Half(len);
    match region {
      case LeftBorder =>
        p := if kreal + j < 0 then j - kreal else j + kreal;
      case FullLine =>
        p := j + kreal;
      case RightBorder =>
        p := if kreal + j >= n then j - kreal else j + kreal;
    }
    LoopTapIsMirrorTap(n, len, j, k);
  }

  /** `cur_input[...]` for tap k, with the index expression of the loop `region`. */
  method TapSample(inp: array<real>, line: Line, n: nat, ghost x: seq<real>, len: nat, j: nat, k: nat,
                   region: Region, ghost taps: seq<int>)
    returns (sample: real)
    requires len <= n && j < n && k < len && region == RegionOf(n, len, j) && taps == Taps(n, len, j)
    requires Addr(line, 0) >= 0 && Addr(line, n - 1) < inp.Length && x == Samples(inp[..], line, n)
    ensures sample == At(x, taps[k])
  {
    var p := TapIndex(n, len, j, k, region);
    sample := ReadSample(inp, line, n, p, x);
  }

  /** One turn of the k loop adds tap k. */
  lemma AccNext(x: seq<real>, w: seq<real>, taps: seq<int>, k: nat, sum: real, sample: real)
    requires k < |w| && k < |taps| && sum == Acc(x, w, taps, k) && sample == At(x, taps[k])
    ensures sum + w[k] * sample == Acc(x, w, taps, k + 1)
  {
  }

  /** The k loop: the sum for output j. */
  method PixelSum(inp: array<real>, line: Line, n: nat, w: seq<real>, j: nat, region: Region, ghost x: seq<real>)
    returns (sum: real)
    requires |w| <= n && j < n && region == RegionOf(n, |w|, j)
    requires Addr(line, 0) >= 0 && Addr(line, n - 1) < inp.Length && x == Samples(inp[..], line, n)
    ensures sum == Output(x, w, n, j)
  {
    ghost var taps := Taps(n, |w|, j);
    sum := 0.0;
    var k := 0;
    while k < |w|
      invariant 0 <= k <= |w|
      invariant sum == Acc(x, w, taps, k)
    {
      var sample := TapSample(inp, line, n, x, |w|, j, k, region, taps);
      AccNext(x, w, taps, k, sum, sample);
      sum := sum + w[k] * sample;
      k := k + 1;
    }
  }

  /** The n outputs of a line. */
  function LineOutputs(x: seq<real>, w: seq<real>, n: nat): (r: seq<real>)
    ensures |r| == n
  {
    seq(n, j requires 0 <= j < n => Output(x, w, n, j))
  }

  /** One of the three pixel loops: stores outputs from..to-1, all computed by `region`. */
  method StoreRange(inp: array<real>, inLine: Line, out: array<real>, outLine: Line, n: nat, w: seq<real>,
                    from: nat, to: nat, region: Region, ghost buf: seq<real>, ghost s: seq<real>)
    requires inp != out && s == inp[..]
    requires |w| <= n && from <= to <= n && forall j | from <= j < to :: RegionOf(n, |w|, j) == region
    requires n >= 1 ==> Addr(inLine, 0) >= 0 && Addr(inLine, n - 1) < inp.Length
    requires n >= 1 ==> Addr(outLine, 0) >= 0 && Addr(outLine, n - 1) < out.Length
    requires |buf| == out.Length
    requires Written(out, buf, outLine, LineOutputs(Samples(s, inLine, n), w, n), from)
    modifies out
    ensures Written(out, buf, outLine, LineOutputs(Samples(s, inLine, n), w, n), to)
  {
    ghost var vals := LineOutputs(Samples(s, inLine, n), w, n);
    for j := from to to
      invariant inp[..] == s
      invariant Written(out, buf, outLine, vals, j)
    {
      StoreNext(inp, inLine, out, outLine, n, w, j, region, buf, s, vals);
    }
  }

  /** The array holds `buf` with the first m values of `vals` written along `line`. */
  ghost predicate Written(out: array<real>, buf: seq<real>, line: Line, vals: seq<real>, m: nat)
    reads out
  {
    m <= |vals| && out[..] == WritePrefix(buf, line, vals, m)
  }

  /** One step of StoreRange: output j joins the outputs already written. */
  method StoreNext(inp: array<real>, inLine: Line, out: array<real>, outLine: Line, n: nat, w: seq<real>,
                   j: nat, region: Region, ghost buf: seq<real>, ghost s: seq<real>, ghost vals: seq<real>)
    requires inp != out && s == inp[..]
    requires |w| <= n && j < n && region == RegionOf(n, |w|, j)
    requires Addr(inLine, 0) >= 0 && Addr(inLine, n - 1) < inp.Length
    requires Addr(outLine, 0) >= 0 && Addr(outLine, n - 1) < out.Length
    requires vals == LineOutputs(Samples(s, inLine, n), w, n)
    requires Written(out, buf, outLine, vals, j)
    modifies out
    ensures inp[..] == s
    ensures Written(out, buf, outLine, vals, j + 1)
  {
    ghost var before := out[..];
    StorePixel(inp, inLine, out, outLine, n, w, j, region, s);
    WritePrefixNext(buf, outLine, vals, j, before, Output(Samples(s, inLine, n), w, n, j), out[..]);
  }

  /** Computes output j of a line and stores it. */
  method StorePixel(inp: array<real>, inLine: Line, out: array<real>, outLine: Line, n: nat, w: seq<real>,
                    j: nat, region: Region, ghost s: seq<real>)
    requires inp != out && s == inp[..]
    requires |w| <= n && j < n && region == RegionOf(n, |w|, j)
    requires Addr(inLine, 0) >= 0 && Addr(inLine, n - 1) < inp.Length
    requires Addr(outLine, 0) >= 0 && Addr(outLine, n - 1) < out.Length
    modifies out
    ensures out[..] == Put(old(out[..]), Addr(outLine, j), Output(Samples(s, inLine, n), w, n, j))
  {
    var sum := PixelSum(inp, inLine, n, w, j, region, Samples(s, inLine, n));
    AddrWithin(outLine, 0, j, n - 1);
    out[outLine.off + j * outLine.stride] := sum;
  }

  /**
    One line, by the three loops of the source: [0, L), [L, n - L) and [n - L, n) with
    L = kernel_len / 2. Together they store outputs 0..n-1 once each, in increasing order.
  */
  method ConvolveLine(inp: array<real>, inLine: Line, out: array<real>, outLine: Line, n: nat, w: seq<real>,
                      ghost s: seq<real>)
    requires inp != out && |w| <= n && s == inp[..]
    requires n >= 1 ==> Addr(inLine, 0) >= 0 && Addr(inLine, n - 1) < inp.Length
    requires n >= 1 ==> Addr(outLine, 0) >= 0 && Addr(outLine, n - 1) < out.Length
    modifies out
    ensures out[..] == WritePrefix(old(out[..]), outLine, LineOutputs(Samples(s, inLine, n), w, n), n)
  {
    ghost var buf := out[..];
    var half := |w| / 2;
    StoreRange(inp, inLine, out, outLine, n, w, 0, half, LeftBorder, buf, s);
    StoreRange(inp, inLine, out, outLine, n, w, half, n - half, FullLine, buf, s);
    StoreRange(inp, inLine, out, outLine, n, w, n - half, n, RightBorder, buf, s);
  }

  /** The outputs of every line. */
  function AllOutputs(s: seq<real>, inLay: Layout, nLines: nat, n: nat, w: seq<real>): (r: seq<seq<real>>)
    ensures |r| == nLines && Rectangular(r, n)
  {
    seq(nLines, i requires 0 <= i < nLines => LineOutputs(Samples(s, LineOf(inLay, i), n), w, n))
  }

  /**
    The `for i < n_times` loop: line i of the input, at `LineOf(inLay, i)`, is convolved into
    line i of the output, at `LineOf(outLay, i)`.
  */
  method ConvolveLines(inp: array<real>, inLay: Layout, out: array<real>, outLay: Layout,
                       nLines: nat, n: nat, w: seq<real>)
    requires inp != out && |w| <= n
    requires n >= 1 ==> Holds(inp.Length, inLay, nLines, 0, n - 1) && Holds(out.Length, outLay, nLines, 0, n - 1)
    modifies out
    ensures out[..] == WriteLines(old(out[..]), outLay, n, AllOutputs(inp[..], inLay, nLines, n, w), nLines)
  {
    ghost var s := inp[..];
    ghost var buf := out[..];
    ghost var outs := AllOutputs(s, inLay, nLines, n, w);
    for i := 0 to nLines
      invariant inp[..] == s
      invariant LinesWritten(out, buf, outLay, n, outs, i)
    {
      ConvolveNextLine(inp, inLay, out, outLay, nLines, n, w, i, s, buf, outs);
    }
  }

  /** The array holds `buf` with the first m lines of `outs` written. */
  ghost predicate LinesWritten(out: array<real>, buf: seq<real>, lay: Layout, n: nat, outs: seq<seq<real>>, m: nat)
    reads out
  {
    m <= |outs| && Rectangular(outs, n) && out[..] == WriteLines(buf, lay, n, outs, m)
  }

  /** One step of ConvolveLines: line i joins the lines already written. */
  method ConvolveNextLine(inp: array<real>, inLay: Layout, out: array<real>, outLay: Layout,
                          nLines: nat, n: nat, w: seq<real>, i: nat,
                          ghost s: seq<real>, ghost buf: seq<real>, ghost outs: seq<seq<real>>)
    requires inp != out && |w| <= n && i < nLines && s == inp[..]
    requires n >= 1 ==> Holds(inp.Length, inLay, nLines, 0, n - 1) && Holds(out.Length, outLay, nLines, 0, n - 1)
    requires outs == AllOutputs(s, inLay, nLines, n, w)
    requires LinesWritten(out, buf, outLay, n, outs, i)
    modifies out
    ensures inp[..] == s
    ensures LinesWritten(out, buf, outLay, n, outs, i + 1)
  {
    if n >= 1 {
      LineHeld(inp.Length, inLay, nLines, 0, n - 1, i);
      LineHeld(out.Length, outLay, nLines, 0, n - 1, i);
    }
    ghost var before := out[..];
    ConvolveLine(inp, LineOf(inLay, i), out, LineOf(outLay, i), n, w, s);
    WriteLinesNext(buf, outLay, n, outs, i, before, LineOutputs(Samples(s, LineOf(inLay, i), n), w, n));
  }

  // The two entry points of the file.

  /** Line i at `i * n_pixels`, pixels one apart, in input and output alike. */
  function InnerSingleLayout(n: nat): Layout
  {
    Layout(0, n, 1)
  }

  /** Line i at `i`, pixels `n_times` apart, in input and output alike. */
  function OuterSingleLayout(nTimes: nat): Layout
  {
    Layout(0, 1, nTimes)
  }

  /** `convolve_fir_inner_single`. */
  method InnerSingle(inp: array<real>, n: nat, nTimes: nat, out: array<real>, w: seq<real>)
    requires inp != out && |w| <= n
    requires n * nTimes <= inp.Length && n * nTimes <= out.Length
    modifies out
    ensures out[..] == WriteLines(old(out[..]), InnerSingleLayout(n), n,
                                  AllOutputs(inp[..], InnerSingleLayout(n), nTimes, n, w), nTimes)
  {
    if n >= 1 && nTimes >= 1 {
      assert n * (nTimes - 1) + (n - 1) < n * nTimes;
    }
    ConvolveLines(inp, InnerSingleLayout(n), out, InnerSingleLayout(n), nTimes, n, w);
  }

  /** `convolve_fir_outer_single`. */
  method OuterSingle(inp: array<real>, n: nat, nTimes: nat, out: array<real>, w: seq<real>)
    requires inp != out && |w| <= n
    requires n * nTimes <= inp.Length && n * nTimes <= out.Length
    modifies out
    ensures out[..] == WriteLines(old(out[..]), OuterSingleLayout(nTimes), n,
                                  AllOutputs(inp[..], OuterSingleLayout(nTimes), nTimes, n, w), nTimes)
  {
    if n >= 1 && nTimes >= 1 {
      assert (nTimes - 1) + (n - 1) * nTimes < n * nTimes;
    }
    ConvolveLines(inp, OuterSingleLayout(nTimes), out, OuterSingleLayout(nTimes), nTimes, n, w);
  }

  /** Both layouts keep the lines apart, so pixel j of output line i holds output j of line i. */
  lemma SingleReadBack(buf: seq<real>, s: seq<real>, lay: Layout, n: nat, nTimes: nat, w: seq<real>, i: nat, j: nat)
    requires lay == InnerSingleLayout(n) || lay == OuterSingleLayout(nTimes)
    requires i < nTimes && j < n && 0 <= Addr(LineOf(lay, i), j) < |buf|
    ensures WriteLines(buf, lay, n, AllOutputs(s, lay, nTimes, n, w), nTimes)[Addr(LineOf(lay, i), j)]
            == Output(Samples(s, LineOf(lay, i), n), w, n, j)
  {
    if lay == InnerSingleLayout(n) {
      RowMajorSeparate(lay, nTimes, n);
    } else {
      ColumnMajorSeparate(lay, nTimes, n);
    }
    ReadBack(buf, lay, n, AllOutputs(s, lay, nTimes, n, w), nTimes, i, j);
  }
}
