/**
  The scalar folded convolution of `src/fir_convolve_nosimd_impl.h`, inner variant: every
  line of a strided image is convolved with a half kernel `c[0..KERNEL_LEN]`, the taps at
  distance k being folded into `c[k] * (x[j + k] ± x[j - k])`.

  The header is expanded once per left border, right border, symmetry and KERNEL_LEN; in the
  model these choices are the fields of a `Variant`.
*/
module FirConvolveNosimdImpl {
  import opened Strided

  /** The compile-time boundary treatment of one end of the line. */
  datatype Side = MirrorSide | OptimisticSide

  /** One expansion of the header: the two ends, the symmetry and KERNEL_LEN. */
  datatype Variant = Variant(left: Side, right: Side, symmetric: bool, len: nat)

  /**
    The pixels of one line as the loops see them: pixel t, which is negative in a halo before
    the line, is `x[halo + t]`.
  */
  datatype Signal = Signal(x: seq<real>, halo: nat)

  function Pixel(sig: Signal, t: int): real
  {
    At(sig.x, sig.halo + t)
  }

  /** The reflect-101 index (the border rule `BORDER_REFLECT_101` of OpenCV) of t in [0, n). */
  function Reflect101(n: int, t: int): int
  {
    if t < 0 then -t else if t >= n then 2 * n - 2 - t else t
  }

  /** `offset_left` of the mirroring loops. */
  function MirrorLeft(j: nat, k: nat): int
  {
    if -(k as int) + j < 0 then -(j as int) + k else j - k
  }

  /** `offset_right` of the mirroring loops. */
  function MirrorRight(n: nat, j: nat, k: nat): int
    requires n >= 1
  {
    if k + j >= n then n - ((k + j) % n) - 2 else j + k
  }

  /**
    Whether output j is computed by one of the border loops, which mirror both taps: the left
    loop covers j < KERNEL_LEN, the right loop j >= n - KERNEL_LEN.
  */
  predicate Mirrored(v: Variant, n: nat, j: nat)
  {
    (v.left == MirrorSide && j < v.len) || (v.right == MirrorSide && j + v.len >= n)
  }

  /** Mirroring needs a line longer than KERNEL_LEN. */
  predicate LongEnough(v: Variant, n: nat)
  {
    (v.left == MirrorSide || v.right == MirrorSide) ==> v.len < n
  }

  /** The pixel read for the left tap at distance k from output j. */
  function LeftTap(v: Variant, n: nat, j: nat, k: nat): int
    requires j < n
  {
    if Mirrored(v, n, j) then MirrorLeft(j, k) else j - k
  }

  /** The pixel read for the right tap at distance k from output j. */
  function RightTap(v: Variant, n: nat, j: nat, k: nat): int
    requires j < n
  {
    if Mirrored(v, n, j) then MirrorRight(n, j, k) else j + k
  }

  /** The folded term `c[k] * (x[right] ± x[left])` for the taps at distance k from output j. */
  function Term(sig: Signal, c: seq<real>, v: Variant, n: nat, j: nat, k: nat): real
    requires j < n && k < |c|
  {
    var r := Pixel(sig, RightTap(v, n, j, k));
    var l := Pixel(sig, LeftTap(v, n, j, k));
    c[k] * (if v.symmetric then r + l else r - l)
  }

  /** The folded tap sum for k = 1..m as the innermost loop accumulates it. */
  function TapSum(sig: Signal, c: seq<real>, v: Variant, n: nat, j: nat, m: nat): real
    requires j < n && m < |c|
  {
    if m == 0 then 0.0 else TapSum(sig, c, v, n, j, m - 1) + Term(sig, c, v, n, j, m)
  }

  /** Output j of a line. */
  function Folded(sig: Signal, c: seq<real>, v: Variant, n: nat, j: nat): real
    requires j < n && v.len < |c|
  {
    c[0] * Pixel(sig, j) + TapSum(sig, c, v, n, j, v.len)
  }

  // The unfolded reading of the same outputs.

  /** The full kernel w[-L..L] a half kernel stands for: w[±k] = c[k], or w[-k] = -c[k]. */
  function FullTap(c: seq<real>, symmetric: bool, t: int): real
    requires -|c| < t < |c|
  {
    if t >= 0 then c[t] else if symmetric then c[-t] else -c[-t]
  }

  /** Which pixel is read for kernel offset t around an output. */
  datatype Reading =
    | ByVariant(v: Variant, n: nat, j: nat)   // the taps a variant reads
    | ByReflect101(n: nat, j: nat)            // j + t mirrored by reflect-101
    | Unmapped(j: nat)                        // j + t, inside the line or in its halo

  predicate WellFormed(rd: Reading)
  {
    rd.ByVariant? ==> rd.j < rd.n
  }

  /** The pixel the variant reads for kernel offset t around output j. */
  function Src(v: Variant, n: nat, j: nat, t: int): int
    requires j < n
  {
    if t == 0 then j else if t > 0 then RightTap(v, n, j, t) else LeftTap(v, n, j, -t)
  }

  function Index(rd: Reading, t: int): int
    requires WellFormed(rd)
  {
    match rd
    case ByVariant(v, n, j) => Src(v, n, j, t)
    case ByReflect101(n, j) => Reflect101(n, j + t)
    case Unmapped(j) => j + t
  }

  /** Σ_{t = lo..hi} w[t] · x[Index(rd, t)]. */
  function Correlate(sig: Signal, c: seq<real>, symmetric: bool, rd: Reading, lo: int, hi: int): real
    requires -|c| < lo && hi < |c| && WellFormed(rd)
    decreases hi - lo
  {
    if hi < lo then 0.0
    else Correlate(sig, c, symmetric, rd, lo, hi - 1) + FullTap(c, symmetric, hi) * Pixel(sig, Index(rd, hi))
  }

  lemma {:induction false} CorrelatePeelLow(sig: Signal, c: seq<real>, symmetric: bool, rd: Reading,
                                            lo: int, hi: int)
    requires -|c| < lo <= hi < |c| && WellFormed(rd)
    ensures Correlate(sig, c, symmetric, rd, lo, hi)
            == FullTap(c, symmetric, lo) * Pixel(sig, Index(rd, lo)) + Correlate(sig, c, symmetric, rd, lo + 1, hi)
    decreases hi - lo
  {
    if lo < hi {
      CorrelatePeelLow(sig, c, symmetric, rd, lo, hi - 1);
    }
  }

  lemma {:induction false} CorrelateCongruent(sig: Signal, c: seq<real>, symmetric: bool,
                                              f: Reading, g: Reading, lo: int, hi: int)
    requires -|c| < lo && hi < |c| && WellFormed(f) && WellFormed(g)
    requires forall t | lo <= t <= hi :: Index(f, t) == Index(g, t)
    ensures Correlate(sig, c, symmetric, f, lo, hi) == Correlate(sig, c, symmetric, g, lo, hi)
    decreases hi - lo
  {
    if lo <= hi {
      assert Index(f, hi) == Index(g, hi);
      CorrelateCongruent(sig, c, symmetric, f, g, lo, hi - 1);
    }
  }

  /** The real algebra of one folding step. */
  lemma FoldStep(centre: real, prev: real, inner: real, a: real, r: real, l: real, symmetric: bool, w: real,
                 term: real, sum: real, peeled: real, corr: real)
    requires inner == centre + prev
    requires term == a * (if symmetric then r + l else r - l) && sum == prev + term
    requires w == (if symmetric then a else -a)
    requires peeled == inner + a * r && corr == w * l + peeled
    ensures centre + sum == corr
  {
  }

  /** One more tap of the folded sum. */
  lemma TapSumStep(sig: Signal, c: seq<real>, v: Variant, n: nat, j: nat, m: nat)
    requires j < n && 1 <= m < |c|
    ensures TapSum(sig, c, v, n, j, m) == TapSum(sig, c, v, n, j, m - 1) + Term(sig, c, v, n, j, m)
    ensures Term(sig, c, v, n, j, m)
            == c[m] * (if v.symmetric
                       then Pixel(sig, RightTap(v, n, j, m)) + Pixel(sig, LeftTap(v, n, j, m))
                       else Pixel(sig, RightTap(v, n, j, m)) - Pixel(sig, LeftTap(v, n, j, m)))
  {
  }

  /** The highest tap t = m of the correlation over -m+1..m reads the right tap. */
  lemma CorrelateHighStep(sig: Signal, c: seq<real>, v: Variant, n: nat, j: nat, m: nat)
    requires j < n && 1 <= m < |c|
    ensures Correlate(sig, c, v.symmetric, ByVariant(v, n, j), 1 - m, m)
            == Correlate(sig, c, v.symmetric, ByVariant(v, n, j), 1 - m, m - 1) + c[m] * Pixel(sig, RightTap(v, n, j, m))
  {
    assert Index(ByVariant(v, n, j), m) == RightTap(v, n, j, m);
  }

  /** The lowest tap t = -m reads the left tap, with weight ±c[m]. */
  lemma CorrelateLowStep(sig: Signal, c: seq<real>, v: Variant, n: nat, j: nat, m: nat)
    requires j < n && 1 <= m < |c|
    ensures Correlate(sig, c, v.symmetric, ByVariant(v, n, j), -(m as int), m)
            == FullTap(c, v.symmetric, -(m as int)) * Pixel(sig, LeftTap(v, n, j, m))
               + Correlate(sig, c, v.symmetric, ByVariant(v, n, j), 1 - m, m)
    ensures FullTap(c, v.symmetric, -(m as int)) == if v.symmetric then c[m] else -c[m]
  {
    CorrelatePeelLow(sig, c, v.symmetric, ByVariant(v, n, j), -(m as int), m);
    assert Index(ByVariant(v, n, j), -(m as int)) == LeftTap(v, n, j, m);
  }

  /**
    The folding identity: the folded sum over k = 1..m equals the full correlation over
    t = -m..m of the taps the variant reads.
  */
  lemma {:induction false} FoldingIdentity(sig: Signal, c: seq<real>, v: Variant, n: nat, j: nat, m: nat)
    requires j < n && m < |c|
    ensures c[0] * Pixel(sig, j) + TapSum(sig, c, v, n, j, m)
            == Correlate(sig, c, v.symmetric, ByVariant(v, n, j), -(m as int), m)
  {
    var rd := ByVariant(v, n, j);
    if m == 0 {
      assert Correlate(sig, c, v.symmetric, rd, 0, -1) == 0.0;
    } else {
      FoldingIdentity(sig, c, v, n, j, m - 1);
      TapSumStep(sig, c, v, n, j, m);
      CorrelateHighStep(sig, c, v, n, j, m);
      CorrelateLowStep(sig, c, v, n, j, m);
      FoldStep(c[0] * Pixel(sig, j), TapSum(sig, c, v, n, j, m - 1), Correlate(sig, c, v.symmetric, rd, 1 - m, m - 1),
               c[m], Pixel(sig, RightTap(v, n, j, m)), Pixel(sig, LeftTap(v, n, j, m)), v.symmetric,
               FullTap(c, v.symmetric, -(m as int)), Term(sig, c, v, n, j, m), TapSum(sig, c, v, n, j, m),
               Correlate(sig, c, v.symmetric, rd, 1 - m, m), Correlate(sig, c, v.symmetric, rd, -(m as int), m));
    }
  }

  /** Output j is the correlation of the line with the full kernel over the taps it reads. */
  lemma FoldedIsCorrelation(sig: Signal, c: seq<real>, v: Variant, n: nat, j: nat)
    requires j < n && v.len < |c|
    ensures Folded(sig, c, v, n, j) == Correlate(sig, c, v.symmetric, ByVariant(v, n, j), -(v.len as int), v.len)
  {
    FoldingIdentity(sig, c, v, n, j, v.len);
  }

  lemma ModOfShift(a: int, n: int)
    requires n >= 1 && n <= a < 2 * n
    ensures a % n == a - n
  {
    assert a == 1 * n + (a - n);
  }

  /** For KERNEL_LEN < n the mirror offsets are the reflect-101 indices and lie in [0, n). */
  lemma MirrorIsReflect101(n: nat, len: nat, j: nat, k: nat)
    requires len < n && j < n && 1 <= k <= len
    ensures MirrorLeft(j, k) == Reflect101(n, j - k) && 0 <= MirrorLeft(j, k) < n
    ensures MirrorRight(n, j, k) == Reflect101(n, j + k) && 0 <= MirrorRight(n, j, k) < n
  {
    if k + j >= n {
      ModOfShift(k + j, n);
    }
  }

  /**
    With mirroring at both ends and KERNEL_LEN < n, every output is the reflect-101
    correlation of the line with the full kernel.
  */
  lemma MirrorVariantIsReflect101(sig: Signal, c: seq<real>, v: Variant, n: nat, j: nat)
    requires v.left == MirrorSide && v.right == MirrorSide
    requires v.len < n && j < n && v.len < |c|
    ensures Folded(sig, c, v, n, j) == Correlate(sig, c, v.symmetric, ByReflect101(n, j), -(v.len as int), v.len)
  {
    FoldedIsCorrelation(sig, c, v, n, j);
    forall t | -(v.len as int) <= t <= v.len
      ensures Index(ByVariant(v, n, j), t) == Index(ByReflect101(n, j), t)
    {
      if t > 0 {
        MirrorIsReflect101(n, v.len, j, t);
      } else if t < 0 {
        MirrorIsReflect101(n, v.len, j, -t);
      }
    }
    CorrelateCongruent(sig, c, v.symmetric, ByVariant(v, n, j), ByReflect101(n, j), -(v.len as int), v.len);
  }

  /**
    With optimistic treatment at both ends no index is mapped: output j reads pixels
    j - KERNEL_LEN .. j + KERNEL_LEN, which lie outside the line near its ends.
  */
  lemma OptimisticVariantReadsHalo(sig: Signal, c: seq<real>, v: Variant, n: nat, j: nat)
    requires v.left == OptimisticSide && v.right == OptimisticSide
    requires j < n && v.len < |c|
    ensures Folded(sig, c, v, n, j) == Correlate(sig, c, v.symmetric, Unmapped(j), -(v.len as int), v.len)
    ensures v.len > j ==> Src(v, n, j, -(v.len as int)) < 0
    ensures j + v.len >= n ==> Src(v, n, j, v.len) >= n
  {
    FoldedIsCorrelation(sig, c, v, n, j);
    CorrelateCongruent(sig, c, v.symmetric, ByVariant(v, n, j), Unmapped(j), -(v.len as int), v.len);
  }

  // The interior loops as written compute the left tap `i_inner - k` in `unsigned int`.

  /** The left tap index of the interior loop as the code computes it: `i_inner - k` modulo 2^32. */
  function UnsignedLeftTap(j: nat, k: nat): nat
  {
    (j - k) % 0x1_0000_0000
  }

  /** It agrees with the signed tap while the tap lies inside the line. */
  lemma UnsignedLeftTapAgrees(j: nat, k: nat)
    requires k <= j < 0x1_0000_0000
    ensures UnsignedLeftTap(j, k) == j - k
  {
  }

  /** Before the line it wraps to 2^32 - (k - j): a pixel far after the line, not before it. */
  lemma UnsignedLeftTapWraps(j: nat, k: nat)
    requires j < k <= 0x1_0000_0000
    ensures UnsignedLeftTap(j, k) == 0x1_0000_0000 + j - k
  {
    assert j - k == -1 * 0x1_0000_0000 + (0x1_0000_0000 + j - k);
  }

  /**
    With an optimistic left end, output 0 is computed by the interior loop; its tap at distance 1
    is pixel -1 of the halo, which the unsigned index turns into pixel 2^32 - 1.
  */
  lemma OptimisticLeftTapWraps(v: Variant, n: nat)
    requires v.left == OptimisticSide && LongEnough(v, n) && n >= 1 && v.len >= 1
    ensures !Mirrored(v, n, 0)
    ensures LeftTap(v, n, 0, 1) == -1 && LowestRead(v) <= -1
    ensures UnsignedLeftTap(0, 1) == 0xFFFF_FFFF
  {
    UnsignedLeftTapWraps(0, 1);
  }

  // Reads stay inside the buffer.

  /** The pixels read before pixel 0 (the halo an optimistic left end needs). */
  function Halo(v: Variant): nat
  {
    if v.left == OptimisticSide then v.len else 0
  }

  /** The lowest and highest pixel index any output of a line reads. */
  function LowestRead(v: Variant): int
  {
    -(Halo(v) as int)
  }

  function HighestRead(v: Variant, n: nat): int
  {
    if v.right == OptimisticSide then n - 1 + v.len else n - 1
  }

  /** Every read of the line lies in [LowestRead, HighestRead]. */
  lemma {:induction false} TapsWithin(v: Variant, n: nat, j: nat, k: nat)
    requires LongEnough(v, n) && j < n && 1 <= k <= v.len
    ensures LowestRead(v) <= LeftTap(v, n, j, k) <= HighestRead(v, n)
    ensures LowestRead(v) <= RightTap(v, n, j, k) <= HighestRead(v, n)
  {
    if Mirrored(v, n, j) {
      MirrorIsReflect101(n, v.len, j, k);
    }
  }

  /** The buffer holds every pixel the outputs of the line read (a halo at optimistic ends). */
  predicate Readable(size: nat, line: Line, v: Variant, n: nat)
  {
    n >= 1 ==> (Addr(line, LowestRead(v)) >= 0 && Addr(line, HighestRead(v, n)) < size)
  }

  /** The buffer holds the n outputs of the line. */
  predicate Writable(size: nat, line: Line, n: nat)
  {
    n >= 1 ==> (line.off >= 0 && Addr(line, n - 1) < size)
  }

  /** The pixels LowestRead..HighestRead of a line of the buffer. */
  function LineView(s: seq<real>, line: Line, v: Variant, n: nat): (sig: Signal)
    ensures sig.halo == Halo(v)
  {
    var w := HighestRead(v, n) - LowestRead(v) + 1;
    Signal(seq(if w > 0 then w else 0, i => At(s, Addr(line, LowestRead(v) + i))), Halo(v))
  }

  lemma ViewPixel(s: seq<real>, line: Line, v: Variant, n: nat, t: int)
    requires LowestRead(v) <= t <= HighestRead(v, n)
    ensures Pixel(LineView(s, line, v, n), t) == At(s, Addr(line, t))
  {
  }

  // The inner variant.

  /** Reads pixel t of a line. */
  method ReadPixel(inp: array<real>, line: Line, v: Variant, n: nat, t: int, ghost sig: Signal) returns (x: real)
    requires n >= 1 && LowestRead(v) <= t <= HighestRead(v, n) && Readable(inp.Length, line, v, n)
    requires sig == LineView(inp[..], line, v, n)
    ensures x == Pixel(sig, t)
  {
    AddrWithin(line, LowestRead(v), t, HighestRead(v, n));
    ViewPixel(inp[..], line, v, n, t);
    x := inp[line.off + t * line.stride];
  }

  /** The term the innermost loop adds for the taps at distance k from output j. */
  method TapTerm(inp: array<real>, line: Line, c: seq<real>, v: Variant, n: nat, j: nat, k: nat, mirrored: bool,
                 ghost sig: Signal)
    returns (term: real)
    requires j < n && 1 <= k <= v.len && v.len < |c| && LongEnough(v, n)
    requires mirrored == Mirrored(v, n, j)
    requires Readable(inp.Length, line, v, n) && sig == LineView(inp[..], line, v, n)
    ensures term == Term(sig, c, v, n, j, k)
  {
    var offsetLeft, offsetRight;
    if mirrored {
      offsetLeft, offsetRight := MirrorLeft(j, k), MirrorRight(n, j, k);
    } else {
      offsetLeft, offsetRight := j - k, j + k;
    }
    TapsWithin(v, n, j, k);
    var r := ReadPixel(inp, line, v, n, offsetRight, sig);
    var l := ReadPixel(inp, line, v, n, offsetLeft, sig);
    if v.symmetric {
      term := c[k] * (r + l);
    } else {
      term := c[k] * (r - l);
    }
  }

  /** The folded sum at output j; `mirrored` selects the offsets of the border loops. */
  method PixelSum(inp: array<real>, line: Line, c: seq<real>, v: Variant, n: nat, j: nat, mirrored: bool,
                  ghost sig: Signal)
    returns (sum: real)
    requires j < n && v.len < |c| && LongEnough(v, n)
    requires mirrored == Mirrored(v, n, j)
    requires Readable(inp.Length, line, v, n) && sig == LineView(inp[..], line, v, n)
    ensures sum == Folded(sig, c, v, n, j)
  {
    var centre := ReadPixel(inp, line, v, n, j, sig);
    sum := c[0] * centre;
    ghost var base := sum;
    var k := 1;
    while k <= v.len
      invariant 1 <= k <= v.len + 1
      invariant sum == base + TapSum(sig, c, v, n, j, k - 1)
    {
      var term := TapTerm(inp, line, c, v, n, j, k, mirrored, sig);
      sum := sum + term;
      k := k + 1;
    }
  }

  /** The n outputs of a line. */
  function LineValues(sig: Signal, c: seq<real>, v: Variant, n: nat): (r: seq<real>)
    requires v.len < |c|
    ensures |r| == n
  {
    seq(n, j requires 0 <= j < n => Folded(sig, c, v, n, j))
  }

  /** Computes output j of a line and stores it. */
  method StorePixel(inp: array<real>, inLine: Line, out: array<real>, outLine: Line,
                    c: seq<real>, v: Variant, n: nat, j: nat, mirrored: bool, ghost s: seq<real>)
    requires inp != out && s == inp[..]
    requires j < n && v.len < |c| && LongEnough(v, n)
    requires mirrored == Mirrored(v, n, j)
    requires Readable(inp.Length, inLine, v, n) && Writable(out.Length, outLine, n)
    modifies out
    ensures out[..] == Put(old(out[..]), Addr(outLine, j), Folded(LineView(s, inLine, v, n), c, v, n, j))
  {
    var sum := PixelSum(inp, inLine, c, v, n, j, mirrored, LineView(s, inLine, v, n));
    AddrWithin(outLine, 0, j, n - 1);
    out[outLine.off + j * outLine.stride] := sum;
  }

  /**
    One of the three pixel loops: stores outputs from..to-1 of a line, in increasing order;
    `mirrored` tells whether the loop is a border loop.
  */
  method StoreRange(inp: array<real>, inLine: Line, out: array<real>, outLine: Line,
                    c: seq<real>, v: Variant, n: nat, from: nat, to: nat, mirrored: bool,
                    ghost buf: seq<real>, ghost s: seq<real>)
    requires inp != out && s == inp[..]
    requires from <= to <= n && v.len < |c| && LongEnough(v, n)
    requires forall j | from <= j < to :: Mirrored(v, n, j) == mirrored
    requires Readable(inp.Length, inLine, v, n) && Writable(out.Length, outLine, n)
    requires |buf| == out.Length
    requires out[..] == WritePrefix(buf, outLine, LineValues(LineView(s, inLine, v, n), c, v, n), from)
    modifies out
    ensures out[..] == WritePrefix(buf, outLine, LineValues(LineView(s, inLine, v, n), c, v, n), to)
  {
    ghost var vals := LineValues(LineView(s, inLine, v, n), c, v, n);
    var i := from;
    while i < to
      invariant from <= i <= to
      invariant out[..] == WritePrefix(buf, outLine, vals, i)
    {
      ghost var before := out[..];
      StorePixel(inp, inLine, out, outLine, c, v, n, i, mirrored, s);
      assert vals[i] == Folded(LineView(s, inLine, v, n), c, v, n, i);
      assert out[..] == Put(before, Addr(outLine, i), vals[i]);
      i := i + 1;
    }
  }

  /**
    One line, by the three loops of the source: the left border loop, the loop over the
    interior, and the right border loop. Together they store outputs 0..n-1 once each, in
    increasing order.
  */
  method ConvolveLine(inp: array<real>, inLine: Line, out: array<real>, outLine: Line,
                      c: seq<real>, v: Variant, n: nat, ghost s: seq<real>)
    requires inp != out && s == inp[..]
    requires v.len < |c| && LongEnough(v, n)
    requires Readable(inp.Length, inLine, v, n) && Writable(out.Length, outLine, n)
    modifies out
    ensures out[..] == WritePrefix(old(out[..]), outLine, LineValues(LineView(s, inLine, v, n), c, v, n), n)
  {
    ghost var buf := out[..];
    var len := v.len;
    var i := 0;
    if v.left == MirrorSide {
      StoreRange(inp, inLine, out, outLine, c, v, n, 0, len, true, buf, s);
      i := len;
    }
    var end := if v.right == MirrorSide then n - len else n;
    if i < end {
      StoreRange(inp, inLine, out, outLine, c, v, n, i, end, false, buf, s);
      i := end;
    }
    if v.right == MirrorSide {
      StoreRange(inp, inLine, out, outLine, c, v, n, i, n, true, buf, s);
      i := n;
    }
    assert i == n;
  }

  /** The geometry of a call: buffer offsets, pixels per line, strides and number of lines. */
  datatype Shape = Shape(inBase: nat, outBase: nat, nPixels: nat, pixelStride: nat, nOuter: nat, outerStride: nat)

  function InLayout(sh: Shape): Layout
  {
    Layout(sh.inBase, sh.outerStride, sh.pixelStride)
  }

  function OutLayout(sh: Shape): Layout
  {
    Layout(sh.outBase, sh.outerStride, sh.pixelStride)
  }

  function InLine(sh: Shape, i: nat): Line
  {
    LineOf(InLayout(sh), i)
  }

  function OutLine(sh: Shape, i: nat): Line
  {
    LineOf(OutLayout(sh), i)
  }

  /** The outputs of line i. */
  function LineOutputs(s: seq<real>, sh: Shape, c: seq<real>, v: Variant, i: nat): (r: seq<real>)
    requires v.len < |c|
    ensures |r| == sh.nPixels
  {
    LineValues(LineView(s, InLine(sh, i), v, sh.nPixels), c, v, sh.nPixels)
  }

  /** The outputs of every line. */
  function InnerOutputs(s: seq<real>, sh: Shape, c: seq<real>, v: Variant): (r: seq<seq<real>>)
    requires v.len < |c|
    ensures |r| == sh.nOuter && Rectangular(r, sh.nPixels)
  {
    seq(sh.nOuter, i requires 0 <= i < sh.nOuter => LineOutputs(s, sh, c, v, i))
  }

  /** What a call demands of its buffers: every read and every write lies inside them. */
  predicate Fits(inSize: nat, outSize: nat, sh: Shape, v: Variant)
  {
    sh.nPixels >= 1 ==>
      && Holds(inSize, InLayout(sh), sh.nOuter, LowestRead(v), HighestRead(v, sh.nPixels))
      && Holds(outSize, OutLayout(sh), sh.nOuter, 0, sh.nPixels - 1)
  }

  /**
    `fir_convolve_impl_*`: convolves the n_outer lines of the input, line i at
    `inptr + outer_stride * i`, into the same positions of the output, and returns true.
  */
  method ConvolveInner(inp: array<real>, out: array<real>, sh: Shape, c: seq<real>, v: Variant)
    returns (ok: bool)
    requires inp != out
    requires v.len < |c| && LongEnough(v, sh.nPixels)
    requires Fits(inp.Length, out.Length, sh, v)
    modifies out
    ensures ok
    ensures out[..] == WriteLines(old(out[..]), OutLayout(sh), sh.nPixels, InnerOutputs(inp[..], sh, c, v), sh.nOuter)
  {
    ghost var s := inp[..];
    ghost var o := out[..];
    var i := 0;
    while i < sh.nOuter
      invariant 0 <= i <= sh.nOuter && inp[..] == s
      invariant out[..] == WriteLines(o, OutLayout(sh), sh.nPixels, InnerOutputs(s, sh, c, v), i)
    {
      ConvolveNextLine(inp, out, sh, c, v, i, s, o);
      i := i + 1;
    }
    return true;
  }

  /** One turn of the `for i < n_outer` loop: line i is convolved after lines 0..i-1. */
  method ConvolveNextLine(inp: array<real>, out: array<real>, sh: Shape, c: seq<real>, v: Variant, i: nat,
                          ghost s: seq<real>, ghost o: seq<real>)
    requires inp != out && inp[..] == s && |o| == out.Length
    requires v.len < |c| && LongEnough(v, sh.nPixels)
    requires Fits(inp.Length, out.Length, sh, v) && i < sh.nOuter
    requires out[..] == WriteLines(o, OutLayout(sh), sh.nPixels, InnerOutputs(s, sh, c, v), i)
    modifies out
    ensures out[..] == WriteLines(o, OutLayout(sh), sh.nPixels, InnerOutputs(s, sh, c, v), i + 1)
  {
    var n := sh.nPixels;
    if n >= 1 {
      LineHeld(inp.Length, InLayout(sh), sh.nOuter, LowestRead(v), HighestRead(v, n), i);
      LineHeld(out.Length, OutLayout(sh), sh.nOuter, 0, n - 1, i);
    }
    ConvolveLine(inp, InLine(sh, i), out, OutLine(sh, i), c, v, n, s);
    assert InnerOutputs(s, sh, c, v)[i] == LineValues(LineView(s, InLine(sh, i), v, n), c, v, n);
  }

  /**
    With lines laid out one after another, pixel j of output line i ends up holding output j
    of input line i.
  */
  lemma InnerReadBack(buf: seq<real>, s: seq<real>, sh: Shape, c: seq<real>, v: Variant, i: nat, j: nat)
    requires v.len < |c| && sh.pixelStride >= 1 && sh.outerStride >= sh.nPixels * sh.pixelStride
    requires i < sh.nOuter && j < sh.nPixels && 0 <= Addr(OutLine(sh, i), j) < |buf|
    ensures WriteLines(buf, OutLayout(sh), sh.nPixels, InnerOutputs(s, sh, c, v), sh.nOuter)[Addr(OutLine(sh, i), j)]
            == Folded(LineView(s, InLine(sh, i), v, sh.nPixels), c, v, sh.nPixels, j)
  {
    RowMajorSeparate(OutLayout(sh), sh.nOuter, sh.nPixels);
    ReadBack(buf, OutLayout(sh), sh.nPixels, InnerOutputs(s, sh, c, v), sh.nOuter, i, j);
  }
}
