/**
  Strided images as the convolution loops address them: a buffer of floats, a line starting at
  some offset, pixel t of the line `t * stride` further on, and the lines of an image spaced by
  a line stride. The loops store each output with a single assignment; the functions here say
  what a buffer holds after a sequence of such stores.
*/
module Strided {

  /** A line inside a buffer: pixel t sits at `off + t * stride`. */
  datatype Line = Line(off: int, stride: nat)

  /** The buffer position of pixel t of a line. */
  function Addr(line: Line, t: int): int
  {
    line.off + t * line.stride
  }

  /** The value at a position; the methods only read positions inside the buffer. */
  function At(s: seq<real>, p: int): real
  {
    if 0 <= p < |s| then s[p] else 0.0
  }

  /** The lines of an image: line i starts `lineStride * i` after `base`. */
  datatype Layout = Layout(base: nat, lineStride: nat, pixelStride: nat)

  function LineOf(lay: Layout, i: nat): Line
  {
    Line(lay.base + lay.lineStride * i, lay.pixelStride)
  }

  /** Pixels 0..n-1 of a line. */
  function Samples(s: seq<real>, line: Line, n: nat): (r: seq<real>)
    ensures |r| == n
  {
    seq(n, t => At(s, Addr(line, t)))
  }

  lemma MulMono(a: int, b: int, s: nat)
    requires a <= b
    ensures a * s <= b * s
  {
  }

  lemma AddrWithin(line: Line, lo: int, t: int, hi: int)
    requires lo <= t <= hi
    ensures Addr(line, lo) <= Addr(line, t) <= Addr(line, hi)
  {
    MulMono(lo, t, line.stride);
    MulMono(t, hi, line.stride);
  }

  /** The buffer holds pixels lo..hi of lines 0..nLines-1. */
  predicate Holds(size: nat, lay: Layout, nLines: nat, lo: int, hi: int)
  {
    nLines >= 1 ==> Addr(LineOf(lay, 0), lo) >= 0 && Addr(LineOf(lay, nLines - 1), hi) < size
  }

  lemma LineHeld(size: nat, lay: Layout, nLines: nat, lo: int, hi: int, i: nat)
    requires Holds(size, lay, nLines, lo, hi) && i < nLines
    ensures Addr(LineOf(lay, i), lo) >= 0 && Addr(LineOf(lay, i), hi) < size
  {
    MulMono(i, nLines - 1, lay.lineStride);
  }

  // Stores.

  /** `buf` with position p set to x; positions outside the buffer are never written. */
  function Put(buf: seq<real>, p: int, x: real): (r: seq<real>)
    ensures |r| == |buf|
  {
    if 0 <= p < |buf| then buf[p := x] else buf
  }

  /** `buf` after pixels 0..m-1 of a line were stored, in that order, pixel t holding `vals[t]`. */
  function WritePrefix(buf: seq<real>, line: Line, vals: seq<real>, m: nat): (r: seq<real>)
    requires m <= |vals|
    ensures |r| == |buf|
  {
    if m == 0 then buf else Put(WritePrefix(buf, line, vals, m - 1), Addr(line, m - 1), vals[m - 1])
  }

  /** Storing pixel m after pixels 0..m-1. */
  lemma WritePrefixNext(buf: seq<real>, line: Line, vals: seq<real>, m: nat, before: seq<real>, x: real,
                        after: seq<real>)
    requires m < |vals| && before == WritePrefix(buf, line, vals, m) && x == vals[m]
    requires after == Put(before, Addr(line, m), x)
    ensures after == WritePrefix(buf, line, vals, m + 1)
  {
  }

  /** A stored pixel that no later store overwrites can be read back. */
  lemma {:induction false} WritePrefixAt(buf: seq<real>, line: Line, vals: seq<real>, m: nat, j: nat)
    requires m <= |vals| && j < m
    requires 0 <= Addr(line, j) < |buf|
    requires forall t | j < t < m :: Addr(line, t) != Addr(line, j)
    ensures WritePrefix(buf, line, vals, m)[Addr(line, j)] == vals[j]
  {
    if j < m - 1 {
      WritePrefixAt(buf, line, vals, m - 1, j);
    }
  }

  /** A position no pixel of the line is stored at keeps its value. */
  lemma {:induction false} WritePrefixElsewhere(buf: seq<real>, line: Line, vals: seq<real>, m: nat, p: nat)
    requires m <= |vals| && p < |buf|
    requires forall t | 0 <= t < m :: Addr(line, t) != p
    ensures WritePrefix(buf, line, vals, m)[p] == buf[p]
  {
    if m > 0 {
      WritePrefixElsewhere(buf, line, vals, m - 1, p);
    }
  }

  /** Every line has n outputs. */
  predicate Rectangular(outs: seq<seq<real>>, n: nat)
  {
    forall i | 0 <= i < |outs| :: |outs[i]| == n
  }

  /** `buf` after lines 0..m-1 were stored into it, in that order; line i holds `outs[i]`. */
  function WriteLines(buf: seq<real>, lay: Layout, n: nat, outs: seq<seq<real>>, m: nat): (r: seq<real>)
    requires m <= |outs| && Rectangular(outs, n)
    ensures |r| == |buf|
  {
    if m == 0 then buf
    else WritePrefix(WriteLines(buf, lay, n, outs, m - 1), LineOf(lay, m - 1), outs[m - 1], n)
  }

  /** Storing line m after lines 0..m-1. */
  lemma WriteLinesNext(buf: seq<real>, lay: Layout, n: nat, outs: seq<seq<real>>, m: nat, before: seq<real>,
                       line: seq<real>)
    requires m < |outs| && Rectangular(outs, n) && before == WriteLines(buf, lay, n, outs, m) && line == outs[m]
    ensures WritePrefix(before, LineOf(lay, m), line, n) == WriteLines(buf, lay, n, outs, m + 1)
  {
  }

  // Reading the stores back.

  /** Pixels 0..n-1 of lines 0..nLines-1 all have different positions. */
  predicate Separate(lay: Layout, nLines: nat, n: nat)
  {
    forall i1, j1, i2, j2 | 0 <= i1 < nLines && 0 <= j1 < n && 0 <= i2 < nLines && 0 <= j2 < n
      :: Addr(LineOf(lay, i1), j1) == Addr(LineOf(lay, i2), j2) ==> i1 == i2 && j1 == j2
  }

  /**
    After lines 0..m-1 were stored, pixel j of line i holds output j of line i, provided no two
    pixels share a position.
  */
  lemma {:induction false} ReadBack(buf: seq<real>, lay: Layout, n: nat, outs: seq<seq<real>>, m: nat, i: nat, j: nat)
    requires m <= |outs| && Rectangular(outs, n) && Separate(lay, m, n)
    requires i < m && j < n
    requires 0 <= Addr(LineOf(lay, i), j) < |buf|
    ensures WriteLines(buf, lay, n, outs, m)[Addr(LineOf(lay, i), j)] == outs[i][j]
  {
    var prev := WriteLines(buf, lay, n, outs, m - 1);
    var p := Addr(LineOf(lay, i), j);
    var last := LineOf(lay, m - 1);
    if i == m - 1 {
      assert forall t | j < t < n :: Addr(last, t) != p;
      WritePrefixAt(prev, last, outs[i], n, j);
    } else {
      assert Separate(lay, m - 1, n);
      ReadBack(buf, lay, n, outs, m - 1, i, j);
      assert forall t | 0 <= t < n :: Addr(last, t) != p;
      WritePrefixElsewhere(prev, last, outs[m - 1], n, p);
    }
  }

  /** Positions that are not pixel positions of a stored line keep their value. */
  lemma {:induction false} Untouched(buf: seq<real>, lay: Layout, n: nat, outs: seq<seq<real>>, m: nat, p: nat)
    requires m <= |outs| && Rectangular(outs, n) && p < |buf|
    requires forall i, j | 0 <= i < m && 0 <= j < n :: Addr(LineOf(lay, i), j) != p
    ensures WriteLines(buf, lay, n, outs, m)[p] == buf[p]
  {
    if m > 0 {
      Untouched(buf, lay, n, outs, m - 1, p);
      var last := LineOf(lay, m - 1);
      assert forall j | 0 <= j < n :: Addr(last, j) != p;
      WritePrefixElsewhere(WriteLines(buf, lay, n, outs, m - 1), last, outs[m - 1], n, p);
    }
  }

  // The same stores made pixel by pixel across the lines.

  /** The layout read the other way round: line j of it is pixel j of every line. */
  function Transposed(lay: Layout): Layout
  {
    Layout(lay.base, lay.pixelStride, lay.lineStride)
  }

  lemma TransposedAddr(lay: Layout, i: nat, j: nat)
    ensures Addr(LineOf(Transposed(lay), j), i) == Addr(LineOf(lay, i), j)
  {
  }

  /** Output j of every line, for the transposed layout. */
  function Columns(outs: seq<seq<real>>, n: nat): (r: seq<seq<real>>)
    requires Rectangular(outs, n)
    ensures |r| == n && Rectangular(r, |outs|)
  {
    seq(n, j requires 0 <= j < n => seq(|outs|, i requires 0 <= i < |outs| => outs[i][j]))
  }

  lemma SeparateTransposed(lay: Layout, nLines: nat, n: nat)
    requires Separate(lay, nLines, n)
    ensures Separate(Transposed(lay), n, nLines)
  {
    forall j1, i1, j2, i2 | 0 <= j1 < n && 0 <= i1 < nLines && 0 <= j2 < n && 0 <= i2 < nLines
      && Addr(LineOf(Transposed(lay), j1), i1) == Addr(LineOf(Transposed(lay), j2), i2)
      ensures j1 == j2 && i1 == i2
    {
      TransposedAddr(lay, i1, j1);
      TransposedAddr(lay, i2, j2);
    }
  }

  /**
    When no two pixels share a position, storing pixel 0 of every line, then pixel 1 of every
    line, and so on, leaves the buffer as storing the lines one after another does.
  */
  lemma StoreOrderIrrelevant(buf: seq<real>, lay: Layout, n: nat, outs: seq<seq<real>>)
    requires Rectangular(outs, n) && Separate(lay, |outs|, n)
    ensures WriteLines(buf, Transposed(lay), |outs|, Columns(outs, n), n) == WriteLines(buf, lay, n, outs, |outs|)
  {
    var m := |outs|;
    var cols := Columns(outs, n);
    var a := WriteLines(buf, Transposed(lay), m, cols, n);
    var b := WriteLines(buf, lay, n, outs, m);
    SeparateTransposed(lay, m, n);
    forall p | 0 <= p < |buf|
      ensures a[p] == b[p]
    {
      if i, j :| 0 <= i < m && 0 <= j < n && Addr(LineOf(lay, i), j) == p {
        TransposedAddr(lay, i, j);
        ReadBack(buf, Transposed(lay), m, cols, n, j, i);
        ReadBack(buf, lay, n, outs, m, i, j);
        assert cols[j][i] == outs[i][j];
      } else {
        forall j, i | 0 <= j < n && 0 <= i < m
          ensures Addr(LineOf(Transposed(lay), j), i) != p
        {
          TransposedAddr(lay, i, j);
        }
        Untouched(buf, Transposed(lay), m, cols, n, p);
        Untouched(buf, lay, n, outs, m, p);
      }
    }
  }

  /** `a * i + b * j` determines (i, j) on [0, na) × [0, nb) when b >= 1 and a >= nb * b. */
  lemma GridInjective(a: nat, b: nat, nb: nat, i1: nat, j1: nat, i2: nat, j2: nat)
    requires b >= 1 && a >= nb * b && j1 < nb && j2 < nb
    requires a * i1 + b * j1 == a * i2 + b * j2
    ensures i1 == i2 && j1 == j2
  {
    if i1 < i2 {
      GridBelow(a, b, nb, i1, j1, i2, j2);
      assert false;
    } else if i2 < i1 {
      GridBelow(a, b, nb, i2, j2, i1, j1);
      assert false;
    } else {
      MulCancel(b, j1, j2);
    }
  }

  lemma MulCancel(b: nat, x: nat, y: nat)
    requires b >= 1 && b * x == b * y
    ensures x == y
  {
    if x < y {
      MulMono(x + 1, y, b);
      assert false;
    } else if y < x {
      MulMono(y + 1, x, b);
      assert false;
    }
  }

  /** A lower line index means a lower position. */
  lemma GridBelow(a: nat, b: nat, nb: nat, i1: nat, j1: nat, i2: nat, j2: nat)
    requires b >= 1 && a >= nb * b && j1 < nb && i1 < i2
    ensures a * i1 + b * j1 < a * i2 + b * j2
  {
    MulMono(j1 + 1, nb, b);
    assert b * j1 + b <= nb * b;
    MulMono(i1 + 1, i2, a);
    assert a * i1 + a <= a * i2;
    assert 0 <= b * j2;
  }

  /** Lines one after another (each line ends before the next starts) do not share positions. */
  lemma RowMajorSeparate(lay: Layout, nLines: nat, n: nat)
    requires lay.pixelStride >= 1 && lay.lineStride >= n * lay.pixelStride
    ensures Separate(lay, nLines, n)
  {
    forall i1, j1, i2, j2 | 0 <= i1 < nLines && 0 <= j1 < n && 0 <= i2 < nLines && 0 <= j2 < n
      && Addr(LineOf(lay, i1), j1) == Addr(LineOf(lay, i2), j2)
      ensures i1 == i2 && j1 == j2
    {
      GridInjective(lay.lineStride, lay.pixelStride, n, i1, j1, i2, j2);
    }
  }

  /** Interleaved lines (pixel j of all lines before pixel j + 1) do not share positions. */
  lemma ColumnMajorSeparate(lay: Layout, nLines: nat, n: nat)
    requires lay.lineStride >= 1 && lay.pixelStride >= nLines * lay.lineStride
    ensures Separate(lay, nLines, n)
  {
    forall i1, j1, i2, j2 | 0 <= i1 < nLines && 0 <= j1 < n && 0 <= i2 < nLines && 0 <= j2 < n
      && Addr(LineOf(lay, i1), j1) == Addr(LineOf(lay, i2), j2)
      ensures i1 == i2 && j1 == j2
    {
      assert lay.pixelStride * j1 + lay.lineStride * i1 == lay.pixelStride * j2 + lay.lineStride * i2;
      GridInjective(lay.pixelStride, lay.lineStride, nLines, j1, i1, j2, i2);
    }
  }

  /**
    With the line stride equal to n pixel strides, a position 1..pixelStride-1 past a pixel
    position (another channel of an interleaved image) is never stored to.
  */
  lemma ChannelsUntouched(buf: seq<real>, lay: Layout, n: nat, outs: seq<seq<real>>, m: nat,
                          i: nat, j: nat, ch: nat, p: nat)
    requires m <= |outs| && Rectangular(outs, n)
    requires lay.lineStride == n * lay.pixelStride
    requires j < n && 0 < ch < lay.pixelStride
    requires p == Addr(LineOf(lay, i), j) + ch && p < |buf|
    ensures WriteLines(buf, lay, n, outs, m)[p] == buf[p]
  {
    forall i2, j2 | 0 <= i2 < m && 0 <= j2 < n
      ensures Addr(LineOf(lay, i2), j2) != p
    {
      ChannelApart(lay, n, i, j, ch, i2, j2);
    }
    Untouched(buf, lay, n, outs, m, p);
  }

  lemma ChannelApart(lay: Layout, n: nat, i: nat, j: nat, ch: nat, i2: nat, j2: nat)
    requires lay.lineStride == n * lay.pixelStride
    requires j < n && j2 < n && 0 < ch < lay.pixelStride
    ensures Addr(LineOf(lay, i2), j2) != Addr(LineOf(lay, i), j) + ch
  {
    var ps := lay.pixelStride;
    // Pixel j of line i is (i * n + j) pixel strides after the base.
    assert lay.lineStride * i + j * ps == (i * n + j) * ps;
    assert lay.lineStride * i2 + j2 * ps == (i2 * n + j2) * ps;
    MultiplesApart(i * n + j, i2 * n + j2, ps, ch);
  }

  lemma MultiplesApart(a: nat, b: nat, ps: nat, ch: nat)
    requires 0 < ch < ps
    ensures b * ps != a * ps + ch
  {
    if b <= a {
      MulMono(b, a, ps);
    } else {
      MulMono(a + 1, b, ps);
    }
  }
}
