/**
  The outer variant of `src/fir_convolve_nosimd_impl.h` (`fir_convolve_outer_impl_*`): the
  convolution runs along the pixel axis while all n_outer lines are processed together, one
  pixel row at a time. Row i of the output is computed into a scratch ring buffer and row
  i - KERNEL_LEN is copied out, so that the call can work in place.

  The first part states the index arithmetic of the code as written; the second part is the
  ring buffer as evidently intended, proved to compute the same outputs as the inner variant.
*/
module FirConvolveNosimdOuter {
  import opened Wrappers
  import opened Memory
  import opened Strided
  import opened FirConvolveNosimdImpl

  // The code as written.

  /** Floats in the scratch buffer: `KERNEL_LEN * n_outer`. */
  function ScratchFloats(len: nat, nOuter: nat): nat
  {
    len * nOuter
  }

  /** The slot row i is computed into: `i % (KERNEL_LEN + 1)`. */
  function RowSlot(len: nat, i: nat): nat
  {
    i % (len + 1)
  }

  /** The slot copied out after row i was computed: `(i + 1) % (KERNEL_LEN + 1)`. */
  function FlushSlot(len: nat, i: nat): nat
  {
    (i + 1) % (len + 1)
  }

  /** Where the interior and right border loops store output line q of row i. */
  function RingOffset(len: nat, nOuter: nat, i: nat, q: nat): nat
  {
    RowSlot(len, i) * nOuter + q
  }

  /** Where the left border loop stores output line q of row i: `n_pixels * i + q`. */
  function LeftBorderOffset(nPixels: nat, i: nat, q: nat): nat
  {
    nPixels * i + q
  }

  /** The output row copied out after row i was computed: `i - KERNEL_LEN`. */
  function FlushRow(len: nat, i: nat): int
  {
    i - len
  }

  /** Where `memcpy` puts element q of the flushed row r: `outptr + r * pixel_stride + q`. */
  function CopiedAddress(sh: Shape, r: nat, q: nat): int
  {
    sh.outBase + r * sh.pixelStride + q
  }

  /**
    Element q of output row r belongs at `outer_stride * q + r * pixel_stride`; for q >= 1 the
    copy puts it there exactly when the lines are adjacent, `outer_stride == 1`.
  */
  lemma CopyNeedsUnitOuterStride(sh: Shape, r: nat, q: nat)
    requires q >= 1
    ensures CopiedAddress(sh, r, q) == Addr(OutLine(sh, q), r) <==> sh.outerStride == 1
  {
    var d := sh.outerStride;
    if d >= 2 {
      MulAtLeast(d - 1, q);
      assert d * q == (d - 1) * q + q;
    }
  }

  /** A line of three floats per pixel (outer stride 3): element 1 of row 0 lands on line 0's third float. */
  lemma InterleavedCopyMisplaced()
    ensures CopiedAddress(Shape(0, 0, 4, 12, 3, 3), 0, 1) == 1
    ensures Addr(OutLine(Shape(0, 0, 4, 12, 3, 3), 1), 0) == 3
  {
  }

  lemma MulAtLeast(d: int, m: nat)
    requires d >= 1
    ensures d * m >= m
  {
    assert d * m == (d - 1) * m + m;
  }

  lemma MulAtMost(d: int, m: nat)
    requires d <= 0
    ensures d * m <= 0
  {
    assert d * m == -((-d) * m);
  }

  /** A remainder is determined by any quotient-remainder decomposition. */
  lemma ModUnique(a: int, m: nat, q: int, r: int)
    requires m >= 1 && 0 <= r < m && a == q * m + r
    ensures a % m == r
  {
    var q', r' := a / m, a % m;
    assert a == q' * m + r';
    assert (q - q') * m == q * m - q' * m;
    if q - q' >= 1 {
      MulAtLeast(q - q', m);
    } else if q - q' <= -1 {
      MulAtLeast(q' - q, m);
    } else {
      assert q == q';
    }
  }

  /** The slot copied out after row i holds row i - KERNEL_LEN. */
  lemma FlushSlotHoldsFlushRow(len: nat, i: nat)
    requires i >= len
    ensures FlushSlot(len, i) == RowSlot(len, i - len)
  {
    var m := len + 1;
    var q, r := (i - len) / m, (i - len) % m;
    assert i - len == q * m + r;
    assert i + 1 == (q + 1) * m + r;
    ModUnique(i + 1, m, q + 1, r);
  }

  /** Any KERNEL_LEN + 1 consecutive rows occupy different slots. */
  lemma RingSlotsDistinct(len: nat, a: nat, b: nat)
    requires a < b <= a + len
    ensures RowSlot(len, a) != RowSlot(len, b)
  {
    var m := len + 1;
    var qa, qb := a / m, b / m;
    assert a == qa * m + a % m && b == qb * m + b % m;
    if a % m == b % m {
      assert (qb - qa) * m == qb * m - qa * m;
      assert (qb - qa) * m == b - a;
      if qb - qa >= 1 {
        MulAtLeast(qb - qa, m);
        assert false;
      } else {
        MulAtMost(qb - qa, m);
        assert false;
      }
    }
  }

  /**
    The scratch buffer is one slot short: once a line is longer than KERNEL_LEN, row
    KERNEL_LEN is computed into slot KERNEL_LEN, which starts at the end of the allocation.
  */
  lemma RingOverflows(len: nat, nOuter: nat, nPixels: nat)
    requires 1 <= len < nPixels && nOuter >= 1
    ensures RowSlot(len, len) == len
    ensures RingOffset(len, nOuter, len, 0) >= ScratchFloats(len, nOuter)
  {
  }

  /**
    The left border loop stores row 1 at `n_pixels`, where the copy-out of row 1 reads slot 1
    at `n_outer`: the two differ whenever n_pixels != n_outer.
  */
  lemma LeftBorderLayoutMismatch(len: nat, nOuter: nat, nPixels: nat)
    requires len >= 2 && nPixels != nOuter
    ensures LeftBorderOffset(nPixels, 1, 0) != RingOffset(len, nOuter, 1, 0)
  {
  }

  /** The closing loop copies out rows n_pixels - KERNEL_LEN .. n_pixels - 1, from their own slots. */
  lemma ClosingFlushes(len: nat, nPixels: nat, i: nat)
    requires i < len && nPixels >= len
    ensures FlushRow(len, nPixels + i) == nPixels - len + i
    ensures FlushSlot(len, nPixels + i) == RowSlot(len, nPixels - len + i)
  {
    FlushSlotHoldsFlushRow(len, nPixels + i);
  }

  /** The interior loop's left read `(i_pixel - k) * pixel_stride`, the difference in `unsigned int`. */
  function InteriorLeftRead(pixelStride: nat, j: nat, k: nat): nat
  {
    UnsignedLeftTap(j, k) * pixelStride
  }

  /**
    With an optimistic left end the interior loop starts at pixel 0, whose tap at distance 1 is
    the halo pixel one stride before the line; the unsigned difference reads 2^32 strides later.
  */
  lemma OuterOptimisticLeftTapWraps(v: Variant, n: nat, pixelStride: nat)
    requires v.left == OptimisticSide && LongEnough(v, n) && n >= 1 && v.len >= 1
    ensures !Mirrored(v, n, 0) && LeftTap(v, n, 0, 1) == -1
    ensures InteriorLeftRead(pixelStride, 0, 1) + pixelStride == 0x1_0000_0000 * pixelStride
  {
    OptimisticLeftTapWraps(v, n);
    assert InteriorLeftRead(pixelStride, 0, 1) == 0xFFFF_FFFF * pixelStride;
  }

  /** The row the closing loop copies out after row n_pixels + i: the difference in `unsigned int`. */
  function ClosingRowAsWritten(len: nat, nPixels: nat, i: nat): nat
  {
    (nPixels + i - len) % 0x1_0000_0000
  }

  /**
    Optimistic ends accept a line shorter than the kernel radius. Its closing loop copies out
    row n_pixels + i - KERNEL_LEN, which lies before the line, and the unsigned difference puts
    it 2^32 - (KERNEL_LEN - n_pixels - i) rows after the line's start.
  */
  lemma ClosingRowWraps(v: Variant, nPixels: nat, i: nat)
    requires v.left == OptimisticSide && v.right == OptimisticSide
    requires nPixels + i < v.len <= 0x1_0000_0000
    ensures LongEnough(v, nPixels) && FlushRow(v.len, nPixels + i) < 0
    ensures ClosingRowAsWritten(v.len, nPixels, i) == 0x1_0000_0000 + nPixels + i - v.len
  {
    var d := nPixels + i - v.len;
    assert d == -1 * 0x1_0000_0000 + (0x1_0000_0000 + d);
  }

  /** An empty line with KERNEL_LEN 1 and optimistic ends: the closing loop writes row 2^32 - 1. */
  lemma EmptyLineClosingRow()
    ensures LongEnough(Variant(OptimisticSide, OptimisticSide, true, 1), 0)
    ensures ClosingRowAsWritten(1, 0, 0) == 0xFFFF_FFFF
  {
    ClosingRowWraps(Variant(OptimisticSide, OptimisticSide, true, 1), 0, 0);
  }

  // The ring buffer as evidently intended: KERNEL_LEN + 1 slots of n_outer floats.

  /** Output-row bytes of the scratch buffer: `(KERNEL_LEN + 1) * n_outer * sizeof(float)`. */
  function RingBytes(len: nat, nOuter: nat): nat
  {
    (len + 1) * nOuter * 4
  }

  /**
    No pixel of an output row is also an input pixel that a later row reads: output row r may
    only coincide with input pixels t <= r. This is what working in place needs.
  */
  predicate NoLateOverlap(sh: Shape, v: Variant)
  {
    forall q1, t, q2, r | 0 <= q1 < sh.nOuter && 0 <= q2 < sh.nOuter && 0 <= r < t <= HighestRead(v, sh.nPixels)
      :: Addr(InLine(sh, q1), t) != Addr(OutLine(sh, q2), r)
  }

  /**
    An image convolved in place along its rows, each row holding the n_outer pixels of the
    lines one outer stride apart, has no late overlap.
  */
  lemma InPlaceRowsSafe(sh: Shape, v: Variant)
    requires sh.inBase == sh.outBase && sh.outerStride >= 1 && sh.pixelStride >= sh.nOuter * sh.outerStride
    ensures NoLateOverlap(sh, v)
  {
    forall q1, t, q2, r | 0 <= q1 < sh.nOuter && 0 <= q2 < sh.nOuter && 0 <= r < t <= HighestRead(v, sh.nPixels)
      ensures Addr(InLine(sh, q1), t) != Addr(OutLine(sh, q2), r)
    {
      if Addr(InLine(sh, q1), t) == Addr(OutLine(sh, q2), r) {
        assert sh.pixelStride * t + sh.outerStride * q1 == sh.pixelStride * r + sh.outerStride * q2;
        GridInjective(sh.pixelStride, sh.outerStride, sh.nOuter, t, q1, r, q2);
        assert false;
      }
    }
  }

  /** Which pixels can a row read: pixels of lines that lie KERNEL_LEN or less before it, or after it. */
  lemma {:induction false} TapsAbove(v: Variant, n: nat, j: nat, k: nat)
    requires LongEnough(v, n) && j < n && 1 <= k <= v.len
    ensures LeftTap(v, n, j, k) >= j - v.len && RightTap(v, n, j, k) >= j - v.len
  {
    if Mirrored(v, n, j) {
      MirrorIsReflect101(n, v.len, j, k);
    }
  }

  /** A sum of taps only depends on the pixels from KERNEL_LEN before the output onwards. */
  lemma {:induction false} TapSumLocal(sig1: Signal, sig2: Signal, c: seq<real>, v: Variant, n: nat, j: nat, m: nat)
    requires LongEnough(v, n) && j < n && m <= v.len < |c|
    requires forall t | j - v.len <= t && LowestRead(v) <= t <= HighestRead(v, n) :: Pixel(sig1, t) == Pixel(sig2, t)
    ensures TapSum(sig1, c, v, n, j, m) == TapSum(sig2, c, v, n, j, m)
  {
    if m > 0 {
      TapSumLocal(sig1, sig2, c, v, n, j, m - 1);
      TapsWithin(v, n, j, m);
      TapsAbove(v, n, j, m);
      var l, r := LeftTap(v, n, j, m), RightTap(v, n, j, m);
      assert Pixel(sig1, l) == Pixel(sig2, l);
      assert Pixel(sig1, r) == Pixel(sig2, r);
      TermLocal(sig1, sig2, c, v, n, j, m);
    }
  }

  lemma TermLocal(sig1: Signal, sig2: Signal, c: seq<real>, v: Variant, n: nat, j: nat, k: nat)
    requires j < n && k < |c|
    requires Pixel(sig1, LeftTap(v, n, j, k)) == Pixel(sig2, LeftTap(v, n, j, k))
    requires Pixel(sig1, RightTap(v, n, j, k)) == Pixel(sig2, RightTap(v, n, j, k))
    ensures Term(sig1, c, v, n, j, k) == Term(sig2, c, v, n, j, k)
  {
  }

  lemma FoldedLocal(sig1: Signal, sig2: Signal, c: seq<real>, v: Variant, n: nat, j: nat)
    requires LongEnough(v, n) && j < n && v.len < |c|
    requires forall t | j - v.len <= t && LowestRead(v) <= t <= HighestRead(v, n) :: Pixel(sig1, t) == Pixel(sig2, t)
    ensures Folded(sig1, c, v, n, j) == Folded(sig2, c, v, n, j)
  {
    TapSumLocal(sig1, sig2, c, v, n, j, v.len);
  }

  /** Output line q of row i, computed from the image before the call. */
  function RowValue(s0: seq<real>, sh: Shape, c: seq<real>, v: Variant, i: nat, q: nat): real
    requires i < sh.nPixels && v.len < |c|
  {
    Folded(LineView(s0, InLine(sh, q), v, sh.nPixels), c, v, sh.nPixels, i)
  }

  /** The input pixels row i reads still hold their values from before the call. */
  predicate Settled(cur: seq<real>, s0: seq<real>, sh: Shape, v: Variant, i: nat)
  {
    forall q, t | 0 <= q < sh.nOuter && i - v.len <= t && LowestRead(v) <= t <= HighestRead(v, sh.nPixels)
      :: At(cur, Addr(InLine(sh, q), t)) == At(s0, Addr(InLine(sh, q), t))
  }

  lemma SettledRow(cur: seq<real>, s0: seq<real>, sh: Shape, c: seq<real>, v: Variant, i: nat, q: nat)
    requires Settled(cur, s0, sh, v, i) && q < sh.nOuter
    requires LongEnough(v, sh.nPixels) && i < sh.nPixels && v.len < |c|
    ensures Folded(LineView(cur, InLine(sh, q), v, sh.nPixels), c, v, sh.nPixels, i) == RowValue(s0, sh, c, v, i, q)
  {
    var n := sh.nPixels;
    forall t | i - v.len <= t && LowestRead(v) <= t <= HighestRead(v, n)
      ensures Pixel(LineView(cur, InLine(sh, q), v, n), t) == Pixel(LineView(s0, InLine(sh, q), v, n), t)
    {
      ViewPixel(cur, InLine(sh, q), v, n, t);
      ViewPixel(s0, InLine(sh, q), v, n, t);
    }
    FoldedLocal(LineView(cur, InLine(sh, q), v, n), LineView(s0, InLine(sh, q), v, n), c, v, n, i);
  }

  /** Computes row i of every line into a slot of the ring. */
  method ComputeRow(inp: array<real>, ring: array2<real>, sh: Shape, c: seq<real>, v: Variant,
                    i: nat, slot: nat, mirrored: bool, ghost s0: seq<real>)
    requires i < sh.nPixels && v.len < |c| && LongEnough(v, sh.nPixels)
    requires mirrored == Mirrored(v, sh.nPixels, i)
    requires Holds(inp.Length, InLayout(sh), sh.nOuter, LowestRead(v), HighestRead(v, sh.nPixels))
    requires slot < ring.Length0 && ring.Length1 == sh.nOuter
    requires Settled(inp[..], s0, sh, v, i)
    modifies ring
    ensures forall q | 0 <= q < sh.nOuter :: ring[slot, q] == RowValue(s0, sh, c, v, i, q)
    ensures forall s, q | 0 <= s < ring.Length0 && s != slot && 0 <= q < ring.Length1 :: ring[s, q] == old(ring[s, q])
  {
    ghost var cur := inp[..];
    var q := 0;
    while q < sh.nOuter
      invariant 0 <= q <= sh.nOuter && inp[..] == cur
      invariant forall q' | 0 <= q' < q :: ring[slot, q'] == RowValue(s0, sh, c, v, i, q')
      invariant forall s, q' | 0 <= s < ring.Length0 && s != slot && 0 <= q' < ring.Length1 :: ring[s, q'] == old(ring[s, q'])
    {
      var sum := RowPixel(inp, sh, c, v, i, q, mirrored, s0);
      ring[slot, q] := sum;
      q := q + 1;
    }
  }

  /** Output i of line q, read from the current input. */
  method RowPixel(inp: array<real>, sh: Shape, c: seq<real>, v: Variant, i: nat, q: nat, mirrored: bool,
                  ghost s0: seq<real>) returns (sum: real)
    requires i < sh.nPixels && q < sh.nOuter && v.len < |c| && LongEnough(v, sh.nPixels)
    requires mirrored == Mirrored(v, sh.nPixels, i)
    requires Holds(inp.Length, InLayout(sh), sh.nOuter, LowestRead(v), HighestRead(v, sh.nPixels))
    requires Settled(inp[..], s0, sh, v, i)
    ensures sum == RowValue(s0, sh, c, v, i, q)
  {
    LineHeld(inp.Length, InLayout(sh), sh.nOuter, LowestRead(v), HighestRead(v, sh.nPixels), q);
    sum := PixelSum(inp, InLine(sh, q), c, v, sh.nPixels, i, mirrored, LineView(inp[..], InLine(sh, q), v, sh.nPixels));
    SettledRow(inp[..], s0, sh, c, v, i, q);
  }

  /** The rows of the outputs: row r holds output r of every line. */
  function Rows(s0: seq<real>, sh: Shape, c: seq<real>, v: Variant): (r: seq<seq<real>>)
    requires v.len < |c|
    ensures |r| == sh.nPixels && Rectangular(r, sh.nOuter)
  {
    Columns(InnerOutputs(s0, sh, c, v), sh.nPixels)
  }

  lemma RowsAt(s0: seq<real>, sh: Shape, c: seq<real>, v: Variant, i: nat, q: nat)
    requires v.len < |c| && i < sh.nPixels && q < sh.nOuter
    ensures Rows(s0, sh, c, v)[i][q] == RowValue(s0, sh, c, v, i, q)
  {
  }

  /** Copies a slot of the ring out to output row r. */
  method CopyOut(ring: array2<real>, out: array<real>, sh: Shape, r: nat, slot: nat,
                  ghost buf: seq<real>, ghost rows: seq<seq<real>>)
    requires r < sh.nPixels && slot < ring.Length0 && ring.Length1 == sh.nOuter
    requires Holds(out.Length, OutLayout(sh), sh.nOuter, 0, sh.nPixels - 1)
    requires |rows| == sh.nPixels && Rectangular(rows, sh.nOuter) && |buf| == out.Length
    requires forall q | 0 <= q < sh.nOuter :: ring[slot, q] == rows[r][q]
    requires out[..] == WriteLines(buf, Transposed(OutLayout(sh)), sh.nOuter, rows, r)
    modifies out
    ensures out[..] == WriteLines(buf, Transposed(OutLayout(sh)), sh.nOuter, rows, r + 1)
  {
    ghost var before := out[..];
    var line := LineOf(Transposed(OutLayout(sh)), r);
    var q := 0;
    while q < sh.nOuter
      invariant 0 <= q <= sh.nOuter
      invariant out[..] == WritePrefix(before, line, rows[r], q)
    {
      TransposedAddr(OutLayout(sh), q, r);
      LineHeld(out.Length, OutLayout(sh), sh.nOuter, 0, sh.nPixels - 1, q);
      AddrWithin(OutLine(sh, q), 0, r, sh.nPixels - 1);
      out[line.off + q * line.stride] := ring[slot, q];
      q := q + 1;
    }
  }

  /** Rows copied out once rows 0..i-1 were computed: all but the last KERNEL_LEN. */
  function Flushed(len: nat, i: nat): nat
  {
    if i >= len then i - len else 0
  }

  /** Rows lo..hi-1 sit in their slots of the ring. */
  ghost predicate Pending(ring: array2<real>, sh: Shape, c: seq<real>, v: Variant, s0: seq<real>, lo: nat, hi: nat)
    reads ring
  {
    && v.len < |c| && hi <= sh.nPixels && ring.Length0 == v.len + 1 && ring.Length1 == sh.nOuter
    && forall r, q | lo <= r < hi && 0 <= q < sh.nOuter :: ring[RowSlot(v.len, r), q] == RowValue(s0, sh, c, v, r, q)
  }

  /**
    The state between two rows: output rows 0..Flushed-1 are stored, the computed rows not yet
    copied out are in their slots of the ring, and a separate input is untouched.
  */
  ghost predicate RingState(inp: array<real>, out: array<real>, ring: array2<real>, sh: Shape, c: seq<real>,
                            v: Variant, i: nat, s0: seq<real>, b0: seq<real>)
    reads inp, out, ring
  {
    && Pending(ring, sh, c, v, s0, Flushed(v.len, i), i)
    && |b0| == out.Length
    && out[..] == WriteLines(b0, Transposed(OutLayout(sh)), sh.nOuter, Rows(s0, sh, c, v), Flushed(v.len, i))
    && (inp != out ==> inp[..] == s0)
  }

  /** Working in place, the rows copied out so far are not among the pixels row i reads. */
  lemma CopiedRowsUnread(cur: seq<real>, s0: seq<real>, sh: Shape, v: Variant, rows: seq<seq<real>>, i: nat)
    requires NoLateOverlap(sh, v) && |rows| == sh.nPixels && Rectangular(rows, sh.nOuter)
    requires Flushed(v.len, i) <= sh.nPixels
    requires cur == WriteLines(s0, Transposed(OutLayout(sh)), sh.nOuter, rows, Flushed(v.len, i))
    ensures Settled(cur, s0, sh, v, i)
  {
    var f := Flushed(v.len, i);
    var lay := Transposed(OutLayout(sh));
    forall q, t | 0 <= q < sh.nOuter && i - v.len <= t && LowestRead(v) <= t <= HighestRead(v, sh.nPixels)
      ensures At(cur, Addr(InLine(sh, q), t)) == At(s0, Addr(InLine(sh, q), t))
    {
      var p := Addr(InLine(sh, q), t);
      if 0 <= p < |s0| {
        forall r, q2 | 0 <= r < f && 0 <= q2 < sh.nOuter
          ensures Addr(LineOf(lay, r), q2) != p
        {
          assert r < t;
          assert Addr(InLine(sh, q), t) != Addr(OutLine(sh, q2), r);
          TransposedAddr(OutLayout(sh), q2, r);
        }
        Untouched(s0, lay, sh.nOuter, rows, f, p);
      }
    }
  }

  /** Computes row i into slot i % (KERNEL_LEN + 1), which no pending row occupies. */
  method ComputeIntoRing(inp: array<real>, ring: array2<real>, sh: Shape, c: seq<real>, v: Variant,
                         i: nat, mirrored: bool, ghost s0: seq<real>)
    requires Pending(ring, sh, c, v, s0, Flushed(v.len, i), i) && i < sh.nPixels
    requires LongEnough(v, sh.nPixels) && mirrored == Mirrored(v, sh.nPixels, i)
    requires Holds(inp.Length, InLayout(sh), sh.nOuter, LowestRead(v), HighestRead(v, sh.nPixels))
    requires Settled(inp[..], s0, sh, v, i)
    modifies ring
    ensures Pending(ring, sh, c, v, s0, Flushed(v.len, i), i + 1)
  {
    var len := v.len;
    var slot := i % (len + 1);
    ghost var lo := Flushed(len, i);
    assert forall r, q | lo <= r < i && 0 <= q < sh.nOuter
      :: ring[RowSlot(len, r), q] == RowValue(s0, sh, c, v, r, q);
    ComputeRow(inp, ring, sh, c, v, i, slot, mirrored, s0);
    forall r, q | lo <= r < i + 1 && 0 <= q < sh.nOuter
      ensures ring[RowSlot(len, r), q] == RowValue(s0, sh, c, v, r, q)
    {
      if r < i {
        RingSlotsDistinct(len, r, i);
        assert ring[RowSlot(len, r), q] == old(ring[RowSlot(len, r), q]);
      }
    }
  }

  /** Copies the oldest pending row, i - KERNEL_LEN, out of the ring. */
  method CopyOldest(ring: array2<real>, out: array<real>, sh: Shape, c: seq<real>, v: Variant,
                    i: nat, ghost s0: seq<real>, ghost b0: seq<real>)
    requires i >= v.len && Pending(ring, sh, c, v, s0, i - v.len, i + 1)
    requires Holds(out.Length, OutLayout(sh), sh.nOuter, 0, sh.nPixels - 1) && |b0| == out.Length
    requires out[..] == WriteLines(b0, Transposed(OutLayout(sh)), sh.nOuter, Rows(s0, sh, c, v), i - v.len)
    modifies out
    ensures out[..] == WriteLines(b0, Transposed(OutLayout(sh)), sh.nOuter, Rows(s0, sh, c, v), i - v.len + 1)
  {
    var len := v.len;
    ghost var rows := Rows(s0, sh, c, v);
    var r := i - len;
    FlushSlotHoldsFlushRow(len, i);
    var from := (i + 1) % (len + 1);
    forall q | 0 <= q < sh.nOuter
      ensures ring[from, q] == rows[r][q]
    {
      RowsAt(s0, sh, c, v, r, q);
    }
    CopyOut(ring, out, sh, r, from, b0, rows);
  }

  /** Row i: computes it into the ring and, from row KERNEL_LEN on, copies row i - KERNEL_LEN out. */
  method Step(inp: array<real>, out: array<real>, ring: array2<real>, sh: Shape, c: seq<real>, v: Variant,
              i: nat, mirrored: bool, ghost s0: seq<real>, ghost b0: seq<real>)
    requires RingState(inp, out, ring, sh, c, v, i, s0, b0) && i < sh.nPixels
    requires LongEnough(v, sh.nPixels) && mirrored == Mirrored(v, sh.nPixels, i)
    requires Fits(inp.Length, out.Length, sh, v)
    requires inp == out ==> s0 == b0 && NoLateOverlap(sh, v)
    modifies out, ring
    ensures RingState(inp, out, ring, sh, c, v, i + 1, s0, b0)
  {
    ComputeStep(inp, out, ring, sh, c, v, i, mirrored, s0, b0);
    if i >= v.len {
      FlushStep(inp, out, ring, sh, c, v, i, s0, b0);
    } else {
      assert Flushed(v.len, i + 1) == 0 == Flushed(v.len, i);
    }
  }

  /** Row i computed into its ring slot, reading only pixels that are not yet overwritten. */
  method ComputeStep(inp: array<real>, out: array<real>, ring: array2<real>, sh: Shape, c: seq<real>, v: Variant,
                     i: nat, mirrored: bool, ghost s0: seq<real>, ghost b0: seq<real>)
    requires RingState(inp, out, ring, sh, c, v, i, s0, b0) && i < sh.nPixels
    requires LongEnough(v, sh.nPixels) && mirrored == Mirrored(v, sh.nPixels, i)
    requires Fits(inp.Length, out.Length, sh, v)
    requires inp == out ==> s0 == b0 && NoLateOverlap(sh, v)
    modifies ring
    ensures Pending(ring, sh, c, v, s0, Flushed(v.len, i), i + 1)
  {
    if inp == out {
      CopiedRowsUnread(inp[..], s0, sh, v, Rows(s0, sh, c, v), i);
    }
    ComputeIntoRing(inp, ring, sh, c, v, i, mirrored, s0);
  }

  /** From row KERNEL_LEN on: the oldest row in the ring copied out. */
  method FlushStep(inp: array<real>, out: array<real>, ring: array2<real>, sh: Shape, c: seq<real>, v: Variant,
                   i: nat, ghost s0: seq<real>, ghost b0: seq<real>)
    requires i >= v.len && Pending(ring, sh, c, v, s0, i - v.len, i + 1)
    requires |b0| == out.Length && Fits(inp.Length, out.Length, sh, v)
    requires out[..] == WriteLines(b0, Transposed(OutLayout(sh)), sh.nOuter, Rows(s0, sh, c, v), i - v.len)
    requires inp != out ==> inp[..] == s0
    modifies out
    ensures RingState(inp, out, ring, sh, c, v, i + 1, s0, b0)
  {
    CopyOldest(ring, out, sh, c, v, i, s0, b0);
    assert Flushed(v.len, i + 1) == i - v.len + 1;
    PendingFrom(ring, sh, c, v, s0, i - v.len, i - v.len + 1, i + 1);
  }

  /** Rows still pending from a later row on. */
  lemma PendingFrom(ring: array2<real>, sh: Shape, c: seq<real>, v: Variant, s0: seq<real>, lo: nat, mid: nat, hi: nat)
    requires Pending(ring, sh, c, v, s0, lo, hi) && lo <= mid
    ensures Pending(ring, sh, c, v, s0, mid, hi)
  {
  }

  /** One of the three pixel loops: rows from..to-1. */
  method StepRange(inp: array<real>, out: array<real>, ring: array2<real>, sh: Shape, c: seq<real>, v: Variant,
                   from: nat, to: nat, mirrored: bool, ghost s0: seq<real>, ghost b0: seq<real>)
    requires RingState(inp, out, ring, sh, c, v, from, s0, b0) && from <= to <= sh.nPixels
    requires LongEnough(v, sh.nPixels) && forall i | from <= i < to :: Mirrored(v, sh.nPixels, i) == mirrored
    requires Fits(inp.Length, out.Length, sh, v)
    requires inp == out ==> s0 == b0 && NoLateOverlap(sh, v)
    modifies out, ring
    ensures RingState(inp, out, ring, sh, c, v, to, s0, b0)
  {
    var i := from;
    while i < to
      invariant from <= i <= to
      invariant RingState(inp, out, ring, sh, c, v, i, s0, b0)
    {
      Step(inp, out, ring, sh, c, v, i, mirrored, s0, b0);
      i := i + 1;
    }
  }

  /** The closing loop: copies out the rows still in the ring, the last KERNEL_LEN or all of a shorter line. */
  method Drain(ring: array2<real>, out: array<real>, sh: Shape, c: seq<real>, v: Variant,
               ghost s0: seq<real>, ghost b0: seq<real>)
    requires Pending(ring, sh, c, v, s0, Flushed(v.len, sh.nPixels), sh.nPixels)
    requires Holds(out.Length, OutLayout(sh), sh.nOuter, 0, sh.nPixels - 1) && |b0| == out.Length
    requires out[..] == WriteLines(b0, Transposed(OutLayout(sh)), sh.nOuter, Rows(s0, sh, c, v), Flushed(v.len, sh.nPixels))
    modifies out
    ensures out[..] == WriteLines(b0, Transposed(OutLayout(sh)), sh.nOuter, Rows(s0, sh, c, v), sh.nPixels)
  {
    var n, len := sh.nPixels, v.len;
    ghost var rows := Rows(s0, sh, c, v);
    var r := Flushed(len, n);
    while r < n
      invariant Flushed(len, n) <= r <= n
      invariant out[..] == WriteLines(b0, Transposed(OutLayout(sh)), sh.nOuter, rows, r)
    {
      forall q | 0 <= q < sh.nOuter
        ensures ring[r % (len + 1), q] == rows[r][q]
      {
        RowsAt(s0, sh, c, v, r, q);
      }
      CopyOut(ring, out, sh, r, r % (len + 1), b0, rows);
      r := r + 1;
    }
  }

  /**
    `fir_convolve_outer_impl_*` with a ring of KERNEL_LEN + 1 slots: allocates the ring (and
    fails if the allocator does), computes the rows in the order of the source's three loops,
    copies every row out once no later row reads its pixels, frees the ring and returns true.
    Output line q of a row lands at its own position `outer_stride * q` of the row. The call
    may work in place.
  */
  method ConvolveOuter(inp: array<real>, out: array<real>, sh: Shape, c: seq<real>, v: Variant, heap: Heap)
    returns (ok: bool)
    requires v.len < |c| && LongEnough(v, sh.nPixels) && Fits(inp.Length, out.Length, sh, v)
    requires inp == out ==> NoLateOverlap(sh, v)
    requires heap.Valid() && heap.Ready()
    modifies out, heap`live, heap`outcomes
    ensures heap.Valid() && heap.outcomes == Drop(old(heap.outcomes), 1) && heap.live == old(heap.live)
    ensures ok == (old(heap.Next()) != Null)
    ensures ok ==> out[..] == WriteLines(old(out[..]), Transposed(OutLayout(sh)), sh.nOuter,
                                         Rows(old(inp[..]), sh, c, v), sh.nPixels)
    ensures !ok ==> out[..] == old(out[..])
  {
    ghost var s0, b0 := inp[..], out[..];
    var p := heap.Alloc(RingBytes(v.len, sh.nOuter));
    if p == Null {
      return false;
    }
    var n, len := sh.nPixels, v.len;
    var ring := new real[len + 1, sh.nOuter];
    var i := 0;
    if v.left == MirrorSide {
      StepRange(inp, out, ring, sh, c, v, 0, len, true, s0, b0);
      i := len;
    }
    var end := if v.right == MirrorSide then n - len else n;
    if i < end {
      StepRange(inp, out, ring, sh, c, v, i, end, false, s0, b0);
      i := end;
    }
    if v.right == MirrorSide {
      StepRange(inp, out, ring, sh, c, v, i, n, true, s0, b0);
      i := n;
    }
    assert i == n;
    if n >= 1 {
      Drain(ring, out, sh, c, v, s0, b0);
    }
    heap.Free(p);
    AddedThenRemoved(old(heap.live), p, RingBytes(len, sh.nOuter));
    return true;
  }

  /**
    The outer variant as written: the same allocation, rows and copies as `ConvolveOuter`, and
    the ring freed in the same way, but the value returned is false on both paths, after every
    row was written as well as when the ring cannot be allocated.
  */
  method ConvolveOuterAsWritten(inp: array<real>, out: array<real>, sh: Shape, c: seq<real>, v: Variant, heap: Heap)
    returns (ok: bool)
    requires v.len < |c| && LongEnough(v, sh.nPixels) && Fits(inp.Length, out.Length, sh, v)
    requires inp == out ==> NoLateOverlap(sh, v)
    requires heap.Valid() && heap.Ready()
    modifies out, heap`live, heap`outcomes
    ensures heap.Valid() && heap.outcomes == Drop(old(heap.outcomes), 1) && heap.live == old(heap.live)
    ensures !ok
    ensures old(heap.Next()) != Null ==>
              out[..] == WriteLines(old(out[..]), Transposed(OutLayout(sh)), sh.nOuter,
                                    Rows(old(inp[..]), sh, c, v), sh.nPixels)
    ensures old(heap.Next()) == Null ==> out[..] == old(out[..])
  {
    var written := ConvolveOuter(inp, out, sh, c, v, heap);
    ok := false;
  }

  lemma AddedThenRemoved(m: map<nat, nat>, p: nat, x: nat)
    requires p !in m
    ensures m[p := x] - {p} == m
  {
  }

  /**
    When no two output pixels share a position, the outer variant leaves the output exactly
    as the inner variant does.
  */
  lemma OuterMatchesInner(buf: seq<real>, s: seq<real>, sh: Shape, c: seq<real>, v: Variant)
    requires v.len < |c| && Separate(OutLayout(sh), sh.nOuter, sh.nPixels)
    ensures WriteLines(buf, Transposed(OutLayout(sh)), sh.nOuter, Rows(s, sh, c, v), sh.nPixels)
            == WriteLines(buf, OutLayout(sh), sh.nPixels, InnerOutputs(s, sh, c, v), sh.nOuter)
  {
    StoreOrderIrrelevant(buf, OutLayout(sh), sh.nPixels, InnerOutputs(s, sh, c, v));
  }
}
