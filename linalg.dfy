/**
  The scalar routines of `src/library/linalg.c`: element-wise combination of buffers, the
  closed-form eigenvalues of symmetric 2×2 and 3×3 matrices given as one buffer per entry, and
  the selection of those routines by CPU feature.
*/
module Linalg {
  import opened Numerics
  import opened Array2d
  import Cpu
  import opened Wrappers

  // ---------------------------------------------------------------------------------------
  // Element-wise combination

  /** The two-input combinations `add`, `mul` and `addsqrt`. */
  datatype Op2 = Add | Mul | AddSqrt

  /** The three-input combinations `add3` and `addsqrt3`. */
  datatype Op3 = Add3 | AddSqrt3

  function Apply2(op: Op2, lib: Libm, a: real, b: real): real
  {
    match op {
      case Add => a + b
      case Mul => a * b
      case AddSqrt => lib.sqrt(a * a + b * b)
    }
  }

  function Apply3(op: Op3, lib: Libm, a: real, b: real, c: real): real
  {
    match op {
      case Add3 => a + b + c
      case AddSqrt3 => lib.sqrt(a * a + b * b + c * c)
    }
  }

  /**
    `_combine_add_default`, `_combine_mul_default`, `_combine_addsqrt_default`: element i of
    `c` becomes the combination of elements i of `a` and `b` for i < n; nothing else is written.
    The output may be one of the inputs.
  */
  method Combine2(op: Op2, lib: Libm, a: array<real>, b: array<real>, c: array<real>, n: nat)
    requires n <= a.Length && n <= b.Length && n <= c.Length
    modifies c
    ensures forall i :: 0 <= i < n ==> c[i] == Apply2(op, lib, old(a[i]), old(b[i]))
    ensures forall i :: n <= i < c.Length ==> c[i] == old(c[i])
  {
    ghost var A, B, C := a[..], b[..], c[..];
    var i := 0;
    while i < n
      invariant 0 <= i <= n
      invariant forall j :: 0 <= j < i ==> c[j] == Apply2(op, lib, A[j], B[j])
      invariant forall j :: i <= j < c.Length ==> c[j] == C[j]
      invariant forall j :: i <= j < a.Length ==> a[j] == A[j]
      invariant forall j :: i <= j < b.Length ==> b[j] == B[j]
    {
      c[i] := Apply2(op, lib, a[i], b[i]);
      i := i + 1;
    }
  }

  /** `_combine_add3_default`, `_combine_addsqrt3_default`: the same with three inputs. */
  method Combine3(op: Op3, lib: Libm, a: array<real>, b: array<real>, c: array<real>, res: array<real>, n: nat)
    requires n <= a.Length && n <= b.Length && n <= c.Length && n <= res.Length
    modifies res
    ensures forall i :: 0 <= i < n ==> res[i] == Apply3(op, lib, old(a[i]), old(b[i]), old(c[i]))
    ensures forall i :: n <= i < res.Length ==> res[i] == old(res[i])
  {
    ghost var A, B, C, R := a[..], b[..], c[..], res[..];
    var i := 0;
    while i < n
      invariant 0 <= i <= n
      invariant forall j :: 0 <= j < i ==> res[j] == Apply3(op, lib, A[j], B[j], C[j])
      invariant forall j :: i <= j < res.Length ==> res[j] == R[j]
      invariant forall j :: i <= j < a.Length ==> a[j] == A[j]
      invariant forall j :: i <= j < b.Length ==> b[j] == B[j]
      invariant forall j :: i <= j < c.Length ==> c[j] == C[j]
    {
      res[i] := Apply3(op, lib, a[i], b[i], c[i]);
      i := i + 1;
    }
  }

  /**
    The buffer a two-input combination leaves: the combination of `a` and `b` below `n`, the old
    contents of the output `c` from `n` on.
  */
  function Combined(op: Op2, lib: Libm, a: seq<real>, b: seq<real>, c: seq<real>, n: nat): (r: seq<real>)
    requires n <= |a| && n <= |b| && n <= |c|
    ensures |r| == |c|
  {
    seq(|c|, i requires 0 <= i < |c| => if i < n then Apply2(op, lib, a[i], b[i]) else c[i])
  }

  /** The element count the 2-D wrappers combine: `n_y * stride_y` of the first operand. */
  function Count2d(a: Image): nat
    reads a
  {
    a.nY * a.strideY
  }

  /**
    `fastfilters_combine_add2d`, `_addsqrt2d`, `_mul2d`: the combination over the first
    operand's `n_y * stride_y` elements, which for a packed image is its whole buffer.
  */
  method Combine2d(op: Op2, lib: Libm, a: Image, b: Image, out: Image)
    requires Count2d(a) <= a.data.Length && Count2d(a) <= b.data.Length && Count2d(a) <= out.data.Length
    modifies out.data
    ensures forall i :: 0 <= i < Count2d(a) ==>
              out.data[i] == Apply2(op, lib, old(a.data[i]), old(b.data[i]))
    ensures forall i :: Count2d(a) <= i < out.data.Length ==> out.data[i] == old(out.data[i])
    ensures a.Packed() ==> Count2d(a) == a.data.Length
    ensures out.data[..] == Combined(op, lib, old(a.data[..]), old(b.data[..]), old(out.data[..]), Count2d(a))
  {
    ghost var A, B, C := a.data[..], b.data[..], out.data[..];
    Combine2(op, lib, a.data, b.data, out.data, a.nY * a.strideY);
    assert out.data[..] == Combined(op, lib, A, B, C, Count2d(a)) by {
      forall i | 0 <= i < out.data.Length
        ensures out.data[i] == Combined(op, lib, A, B, C, Count2d(a))[i]
      {
      }
    }
  }

  /**
    `fastfilters_combine_mul3d`: the product over `n_z * stride_z` elements of the first
    volume, whose descriptor contributes only those two fields.
  */
  method CombineMul3d(lib: Libm, a: array<real>, nZ: nat, strideZ: nat, b: array<real>, out: array<real>)
    requires nZ * strideZ <= a.Length && nZ * strideZ <= b.Length && nZ * strideZ <= out.Length
    modifies out
    ensures forall i :: 0 <= i < nZ * strideZ ==> out[i] == old(a[i]) * old(b[i])
    ensures forall i :: nZ * strideZ <= i < out.Length ==> out[i] == old(out[i])
  {
    Combine2(Mul, lib, a, b, out, nZ * strideZ);
  }

  /** `fastfilters_combine_add3d`, `fastfilters_combine_addsqrt3d`. */
  method Combine3d(op: Op3, lib: Libm, a: array<real>, nZ: nat, strideZ: nat, b: array<real>, c: array<real>,
                   out: array<real>)
    requires nZ * strideZ <= a.Length && nZ * strideZ <= b.Length
    requires nZ * strideZ <= c.Length && nZ * strideZ <= out.Length
    modifies out
    ensures forall i :: 0 <= i < nZ * strideZ ==> out[i] == Apply3(op, lib, old(a[i]), old(b[i]), old(c[i]))
    ensures forall i :: nZ * strideZ <= i < out.Length ==> out[i] == old(out[i])
  {
    Combine3(op, lib, a, b, c, out, nZ * strideZ);
  }

  // ---------------------------------------------------------------------------------------
  // 2×2 eigenvalues

  /** The two eigenvalues of one matrix, larger first. */
  datatype Roots2 = Roots2(big: real, small: real)

  /** `sqrt` is a square root at x. */
  predicate SqrtAt(lib: Libm, x: real)
  {
    x >= 0.0 ==> lib.sqrt(x) >= 0.0 && lib.sqrt(x) * lib.sqrt(x) == x
  }

  /** The discriminant `((xx - yy) / 2)^2 + xy^2`. */
  function Discriminant(xx: real, xy: real, yy: real): (d: real)
    ensures d >= 0.0
  {
    var h := (xx - yy) / 2.0;
    h * h + xy * xy
  }

  /** The loop body of `_ev2d_default`: mean ± root of the discriminant, ordered. */
  function Ev2dPixel(lib: Libm, xx: real, xy: real, yy: real): (r: Roots2)
    ensures r.big >= r.small
  {
    var mean := (xx + yy) / 2.0;
    var s := lib.sqrt(Discriminant(xx, xy, yy));
    var ev0 := mean + s;
    var ev1 := mean - s;
    if ev0 > ev1 then Roots2(ev0, ev1) else Roots2(ev1, ev0)
  }

  /** The two roots are the eigenvalues: their sum is the trace and their product the determinant. */
  lemma Ev2dTraceDeterminant(lib: Libm, xx: real, xy: real, yy: real)
    requires SqrtAt(lib, Discriminant(xx, xy, yy))
    ensures var r := Ev2dPixel(lib, xx, xy, yy);
            && r.big + r.small == xx + yy
            && r.big * r.small == xx * yy - xy * xy
  {
    var mean := (xx + yy) / 2.0;
    var d := Discriminant(xx, xy, yy);
    var s := lib.sqrt(d);
    assert (mean + s) * (mean - s) == mean * mean - s * s;
    assert mean * mean - d == xx * yy - xy * xy;
  }

  /**
    `_ev2d_default`: for every i < len the larger root goes to the buffer in fourth position
    (`ev_big`) and the smaller to the fifth (`ev_small`).
  */
  method Ev2d(lib: Libm, xx: array<real>, xy: array<real>, yy: array<real>, evBig: array<real>,
              evSmall: array<real>, len: nat)
    requires len <= xx.Length && len <= xy.Length && len <= yy.Length
    requires len <= evBig.Length && len <= evSmall.Length
    requires evBig != evSmall
    requires evBig != xx && evBig != xy && evBig != yy && evSmall != xx && evSmall != xy && evSmall != yy
    modifies evBig, evSmall
    ensures forall i :: 0 <= i < len ==>
              && evBig[i] == Ev2dPixel(lib, xx[i], xy[i], yy[i]).big
              && evSmall[i] == Ev2dPixel(lib, xx[i], xy[i], yy[i]).small
    ensures forall i :: len <= i < evBig.Length ==> evBig[i] == old(evBig[i])
    ensures forall i :: len <= i < evSmall.Length ==> evSmall[i] == old(evSmall[i])
  {
    var i := 0;
    while i < len
      invariant 0 <= i <= len
      invariant forall j :: 0 <= j < i ==>
                  && evBig[j] == Ev2dPixel(lib, xx[j], xy[j], yy[j]).big
                  && evSmall[j] == Ev2dPixel(lib, xx[j], xy[j], yy[j]).small
      invariant forall j :: i <= j < evBig.Length ==> evBig[j] == old(evBig[j])
      invariant forall j :: i <= j < evSmall.Length ==> evSmall[j] == old(evSmall[j])
    {
      var vxx, vxy, vyy := xx[i], xy[i], yy[i];
      var tmp0 := (vxx + vyy) / 2.0;
      var tmp1 := (vxx - vyy) / 2.0;
      tmp1 := tmp1 * tmp1;
      var det := tmp1 + vxy * vxy;
      var detSqrt := lib.sqrt(det);
      var ev0 := tmp0 + detSqrt;
      var ev1 := tmp0 - detSqrt;
      assert det == Discriminant(vxx, vxy, vyy);
      if ev0 > ev1 {
        evSmall[i] := ev1;
        evBig[i] := ev0;
      } else {
        evSmall[i] := ev0;
        evBig[i] := ev1;
      }
      assert Roots2(evBig[i], evSmall[i]) == Ev2dPixel(lib, xx[i], xy[i], yy[i]);
      i := i + 1;
    }
  }

  /**
    `fastfilters_linalg_ev2d(xx, xy, yy, ev_small, ev_big, len)` with the default routine bound:
    the buffer the entry point calls `ev_small` receives the larger root.
  */
  method LinalgEv2d(lib: Libm, xx: array<real>, xy: array<real>, yy: array<real>, evSmall: array<real>,
                    evBig: array<real>, len: nat)
    requires len <= xx.Length && len <= xy.Length && len <= yy.Length
    requires len <= evBig.Length && len <= evSmall.Length
    requires evBig != evSmall
    requires evBig != xx && evBig != xy && evBig != yy && evSmall != xx && evSmall != xy && evSmall != yy
    modifies evBig, evSmall
    ensures forall i :: 0 <= i < len ==>
              && evSmall[i] == Ev2dPixel(lib, xx[i], xy[i], yy[i]).big
              && evBig[i] == Ev2dPixel(lib, xx[i], xy[i], yy[i]).small
              && evSmall[i] >= evBig[i]
    ensures forall i :: len <= i < evBig.Length ==> evBig[i] == old(evBig[i])
    ensures forall i :: len <= i < evSmall.Length ==> evSmall[i] == old(evSmall[i])
  {
    Ev2d(lib, xx, xy, yy, evSmall, evBig, len);
  }

  /**
    For the diagonal matrix diag(2, 0) the two roots differ, so the buffer passed as `ev_small`
    receives the strictly larger one.
  */
  lemma Ev2dDiagonalRoots(lib: Libm)
    requires SqrtAt(lib, 1.0)
    ensures var r := Ev2dPixel(lib, 2.0, 0.0, 0.0);
            r.big == 1.0 + lib.sqrt(1.0) && r.small == 1.0 - lib.sqrt(1.0) && r.big > r.small
  {
    assert Discriminant(2.0, 0.0, 0.0) == 1.0;
    var s := lib.sqrt(1.0);
    assert s != 0.0 by {
      assert s * s == 1.0;
    }
  }

  /**
    `fastfilters_linalg_ev2d` with the default routine taking its outputs in the order of the
    entry point and of `_ev2d_avx`: `ev_small` receives the smaller root and `ev_big` the larger.
  */
  method LinalgEv2dOrdered(lib: Libm, xx: array<real>, xy: array<real>, yy: array<real>, evSmall: array<real>,
                           evBig: array<real>, len: nat)
    requires len <= xx.Length && len <= xy.Length && len <= yy.Length
    requires len <= evBig.Length && len <= evSmall.Length
    requires evBig != evSmall
    requires evBig != xx && evBig != xy && evBig != yy && evSmall != xx && evSmall != xy && evSmall != yy
    modifies evBig, evSmall
    ensures forall i :: 0 <= i < len ==>
              && evSmall[i] == Ev2dPixel(lib, xx[i], xy[i], yy[i]).small
              && evBig[i] == Ev2dPixel(lib, xx[i], xy[i], yy[i]).big
              && evSmall[i] <= evBig[i]
    ensures forall i :: len <= i < evBig.Length ==> evBig[i] == old(evBig[i])
    ensures forall i :: len <= i < evSmall.Length ==> evSmall[i] == old(evSmall[i])
  {
    Ev2d(lib, xx, xy, yy, evBig, evSmall, len);
  }

  // ---------------------------------------------------------------------------------------
  // 3×3 eigenvalues

  /** The six distinct entries of a symmetric 3×3 matrix. */
  datatype Sym3 = Sym3(a00: real, a01: real, a02: real, a11: real, a12: real, a22: real)

  /** Three eigenvalues, meant largest first. */
  datatype Roots3 = Roots3(r0: real, r1: real, r2: real)

  /** The `max` helper of the source: a when a > b, b otherwise. */
  function Max(a: real, b: real): (r: real)
    ensures r >= a && r >= b && (r == a || r == b)
  {
    if a > b then a else b
  }

  /** The largest absolute entry, the guard against overflow. */
  function MaxElement(m: Sym3): (r: real)
    ensures r >= 0.0
    ensures r == 0.0 <==> m == Sym3(0.0, 0.0, 0.0, 0.0, 0.0, 0.0)
    ensures Abs(m.a00) <= r && Abs(m.a01) <= r && Abs(m.a02) <= r
    ensures Abs(m.a11) <= r && Abs(m.a12) <= r && Abs(m.a22) <= r
  {
    var max0 := Max(Abs(m.a00), Abs(m.a01));
    var max1 := Max(Abs(m.a02), Abs(m.a11));
    var max2 := Max(Abs(m.a12), Abs(m.a22));
    Max(Max(max0, max1), max2)
  }

  /** Every entry multiplied by s. */
  function ScaleMatrix(m: Sym3, s: real): Sym3
  {
    Sym3(m.a00 * s, m.a01 * s, m.a02 * s, m.a11 * s, m.a12 * s, m.a22 * s)
  }

  /** The characteristic coefficients: determinant, sum of principal minors, trace. */
  datatype Characteristic = Characteristic(c0: real, c1: real, c2: real)

  function CharacteristicOf(m: Sym3): Characteristic
  {
    var c0 := m.a00 * m.a11 * m.a22 + 2.0 * m.a01 * m.a02 * m.a12 - m.a00 * m.a12 * m.a12
              - m.a11 * m.a02 * m.a02 - m.a22 * m.a01 * m.a01;
    var c1 := m.a00 * m.a11 - m.a01 * m.a01 + m.a00 * m.a22 - m.a02 * m.a02 + m.a11 * m.a22 - m.a12 * m.a12;
    var c2 := m.a00 + m.a11 + m.a22;
    Characteristic(c0, c1, c2)
  }

  /** `1.0 / 3.0`. */
  const Inv3: real := 1.0 / 3.0

  /** `aDiv3`, clamped so that it is never positive. */
  function ADiv3(c: Characteristic): (r: real)
    ensures r <= 0.0
  {
    var c2Div3 := c.c2 * Inv3;
    var a := (c.c1 - c.c2 * c2Div3) * Inv3;
    if a > 0.0 then 0.0 else a
  }

  /** `mbDiv2`. */
  function MbDiv2(c: Characteristic): real
  {
    var c2Div3 := c.c2 * Inv3;
    0.5 * (c.c0 + c2Div3 * (2.0 * c2Div3 * c2Div3 - c.c1))
  }

  /** `q`, clamped so that it is never positive. */
  function Q(c: Characteristic): (r: real)
    ensures r <= 0.0
  {
    var a := ADiv3(c);
    var q := MbDiv2(c) * MbDiv2(c) + a * a * a;
    if q > 0.0 then 0.0 else q
  }

  /** The clamps make both square-root arguments non-negative. */
  lemma SqrtArgumentsNonNegative(c: Characteristic)
    ensures -ADiv3(c) >= 0.0 && -Q(c) >= 0.0
  {
  }

  /** Eberly's trigonometric roots, before sorting; the trigonometry is left to `lib`. */
  function TrigRoots(lib: Libm, c: Characteristic): Roots3
  {
    var c2Div3 := c.c2 * Inv3;
    var magnitude := lib.sqrt(-ADiv3(c));
    var angle := lib.atan2(lib.sqrt(-Q(c)), MbDiv2(c)) * Inv3;
    var cs := lib.cos(angle);
    var sn := lib.sin(angle);
    var root3 := lib.sqrt(3.0);
    Roots3(c2Div3 + 2.0 * magnitude * cs, c2Div3 - magnitude * (cs + root3 * sn),
           c2Div3 - magnitude * (cs - root3 * sn))
  }

  predicate Descending(r: Roots3)
  {
    r.r0 >= r.r1 >= r.r2
  }

  function Values(r: Roots3): multiset<real>
  {
    multiset{r.r0, r.r1, r.r2}
  }

  /** The three conditional swaps (0,1), (0,2), (1,2). */
  function SortNetwork(r: Roots3): Roots3
  {
    var r1 := if r.r0 < r.r1 then Roots3(r.r1, r.r0, r.r2) else r;
    var r2 := if r1.r0 < r1.r2 then Roots3(r1.r2, r1.r1, r1.r0) else r1;
    if r2.r1 < r2.r2 then Roots3(r2.r0, r2.r2, r2.r1) else r2
  }

  /** The swaps sort: the result is descending and a permutation of the roots. */
  lemma SortNetworkSorts(r: Roots3)
    ensures Descending(SortNetwork(r)) && Values(SortNetwork(r)) == Values(r)
  {
  }

  /** Every root multiplied by s. */
  function ScaleRoots(r: Roots3, s: real): Roots3
  {
    Roots3(r.r0 * s, r.r1 * s, r.r2 * s)
  }

  /** Scaling by a positive factor keeps the order. */
  lemma ScalePreservesOrder(r: Roots3, s: real)
    requires Descending(r) && s > 0.0
    ensures Descending(ScaleRoots(r, s))
  {
    assert r.r0 * s - r.r1 * s == (r.r0 - r.r1) * s;
    assert r.r1 * s - r.r2 * s == (r.r1 - r.r2) * s;
  }

  /**
    The loop body of `_ev3d_default`: zeros for the zero matrix; otherwise the sorted roots of
    the matrix scaled to largest entry 1, scaled back.
  */
  function Ev3dPixel(lib: Libm, m: Sym3): (r: Roots3)
  {
    var me := MaxElement(m);
    if me == 0.0 then Roots3(0.0, 0.0, 0.0)
    else ScaleRoots(SortNetwork(TrigRoots(lib, CharacteristicOf(ScaleMatrix(m, 1.0 / me)))), me)
  }

  /** The result is always in descending order; the zero matrix yields three zeros. */
  lemma Ev3dDescending(lib: Libm, m: Sym3)
    ensures Descending(Ev3dPixel(lib, m))
    ensures m == Sym3(0.0, 0.0, 0.0, 0.0, 0.0, 0.0) ==> Ev3dPixel(lib, m) == Roots3(0.0, 0.0, 0.0)
  {
    var me := MaxElement(m);
    if me != 0.0 {
      SortNetworkSorts(TrigRoots(lib, CharacteristicOf(ScaleMatrix(m, 1.0 / me))));
      ScalePreservesOrder(SortNetwork(TrigRoots(lib, CharacteristicOf(ScaleMatrix(m, 1.0 / me)))), me);
    }
  }

  /** `swap`: exchanges two values. */
  method Swap(a: real, b: real) returns (a': real, b': real)
    ensures a' == b && b' == a
  {
    var tmp := a;
    a' := b;
    b' := tmp;
  }

  /** The swaps of `_ev3d_default` on the three roots. */
  method Sort(r: Roots3) returns (s: Roots3)
    ensures s == SortNetwork(r)
    ensures Descending(s) && Values(s) == Values(r)
  {
    var r0, r1, r2 := r.r0, r.r1, r.r2;
    if r0 < r1 {
      r0, r1 := Swap(r0, r1);
    }
    if r0 < r2 {
      r0, r2 := Swap(r0, r2);
    }
    if r1 < r2 {
      r1, r2 := Swap(r1, r2);
    }
    s := Roots3(r0, r1, r2);
    SortNetworkSorts(r);
  }

  /** One matrix: the guard, the normalisation, the clamps, the swaps and the rescaling. */
  method Eigen3(lib: Libm, m: Sym3) returns (r: Roots3)
    ensures r == Ev3dPixel(lib, m)
  {
    var maxElement := MaxElement(m);
    if maxElement == 0.0 {
      return Roots3(0.0, 0.0, 0.0);
    }
    var c := CharacteristicOf(ScaleMatrix(m, 1.0 / maxElement));
    var sorted := Sort(TrigRoots(lib, c));
    r := ScaleRoots(sorted, maxElement);
  }

  /** The matrix at index i of the six entry buffers. */
  function MatrixAt(a00: array<real>, a01: array<real>, a02: array<real>, a11: array<real>, a12: array<real>,
                    a22: array<real>, i: nat): Sym3
    reads a00, a01, a02, a11, a12, a22
    requires i < a00.Length && i < a01.Length && i < a02.Length
    requires i < a11.Length && i < a12.Length && i < a22.Length
  {
    Sym3(a00[i], a01[i], a02[i], a11[i], a12[i], a22[i])
  }

  /** The three outputs at index i. */
  function OutputAt(ev0: array<real>, ev1: array<real>, ev2: array<real>, i: nat): Roots3
    reads ev0, ev1, ev2
    requires i < ev0.Length && i < ev1.Length && i < ev2.Length
  {
    Roots3(ev0[i], ev1[i], ev2[i])
  }

  /** An output buffer is none of the six entry buffers. */
  predicate NotInput(e: array<real>, a00: array<real>, a01: array<real>, a02: array<real>, a11: array<real>,
                     a12: array<real>, a22: array<real>)
  {
    e != a00 && e != a01 && e != a02 && e != a11 && e != a12 && e != a22
  }

  /** Six entry buffers and three distinct output buffers, none an input, of n elements at least. */
  predicate Buffers3(a00: array<real>, a01: array<real>, a02: array<real>, a11: array<real>, a12: array<real>,
                     a22: array<real>, ev0: array<real>, ev1: array<real>, ev2: array<real>, n: nat)
  {
    && n <= a00.Length && n <= a01.Length && n <= a02.Length
    && n <= a11.Length && n <= a12.Length && n <= a22.Length
    && n <= ev0.Length && n <= ev1.Length && n <= ev2.Length
    && ev0 != ev1 && ev0 != ev2 && ev1 != ev2
    && NotInput(ev0, a00, a01, a02, a11, a12, a22) && NotInput(ev1, a00, a01, a02, a11, a12, a22)
    && NotInput(ev2, a00, a01, a02, a11, a12, a22)
  }

  /**
    `_ev3d_default`: for every i < len the three outputs hold the matrix's eigenvalue
    estimates in descending order, the zero matrix giving zeros; nothing else is written.
  */
  method Ev3d(lib: Libm, a00: array<real>, a01: array<real>, a02: array<real>, a11: array<real>,
              a12: array<real>, a22: array<real>, ev0: array<real>, ev1: array<real>, ev2: array<real>, len: nat)
    requires Buffers3(a00, a01, a02, a11, a12, a22, ev0, ev1, ev2, len)
    modifies ev0, ev1, ev2
    ensures forall i :: 0 <= i < len ==>
              OutputAt(ev0, ev1, ev2, i) == Ev3dPixel(lib, MatrixAt(a00, a01, a02, a11, a12, a22, i))
    ensures forall i :: len <= i < ev0.Length ==> ev0[i] == old(ev0[i])
    ensures forall i :: len <= i < ev1.Length ==> ev1[i] == old(ev1[i])
    ensures forall i :: len <= i < ev2.Length ==> ev2[i] == old(ev2[i])
  {
    var i := 0;
    while i < len
      invariant 0 <= i <= len
      invariant forall j :: 0 <= j < i ==>
                  OutputAt(ev0, ev1, ev2, j) == Ev3dPixel(lib, MatrixAt(a00, a01, a02, a11, a12, a22, j))
      invariant forall j :: i <= j < ev0.Length ==> ev0[j] == old(ev0[j])
      invariant forall j :: i <= j < ev1.Length ==> ev1[j] == old(ev1[j])
      invariant forall j :: i <= j < ev2.Length ==> ev2[j] == old(ev2[j])
    {
      Store3(lib, a00, a01, a02, a11, a12, a22, ev0, ev1, ev2, i);
      i := i + 1;
    }
  }

  /** One iteration of `_ev3d_default`: writes index i of the three outputs and nothing else. */
  method Store3(lib: Libm, a00: array<real>, a01: array<real>, a02: array<real>, a11: array<real>,
                a12: array<real>, a22: array<real>, ev0: array<real>, ev1: array<real>, ev2: array<real>, i: nat)
    requires Buffers3(a00, a01, a02, a11, a12, a22, ev0, ev1, ev2, i + 1)
    modifies ev0, ev1, ev2
    ensures OutputAt(ev0, ev1, ev2, i) == Ev3dPixel(lib, MatrixAt(a00, a01, a02, a11, a12, a22, i))
    ensures forall j :: 0 <= j < ev0.Length && j != i ==> ev0[j] == old(ev0[j])
    ensures forall j :: 0 <= j < ev1.Length && j != i ==> ev1[j] == old(ev1[j])
    ensures forall j :: 0 <= j < ev2.Length && j != i ==> ev2[j] == old(ev2[j])
  {
    var r := Eigen3(lib, MatrixAt(a00, a01, a02, a11, a12, a22, i));
    ev0[i] := r.r0;
    ev1[i] := r.r1;
    ev2[i] := r.r2;
  }

  // ---------------------------------------------------------------------------------------
  // Routine selection

  /** Which variant a routine pointer holds; None is NULL. */
  datatype Variant = Default | Avx | Avx2

  /** The seven routine pointers of `linalg.c`. */
  class Routines {
    var ev2d: Option<Variant>
    var ev3d: Option<Variant>
    var add: Option<Variant>
    var mul: Option<Variant>
    var addSqrt: Option<Variant>
    var add3: Option<Variant>
    var addSqrt3: Option<Variant>

    constructor ()
      ensures ev2d == None && ev3d == None && add == None && mul == None
      ensures addSqrt == None && add3 == None && addSqrt3 == None
    {
      ev2d, ev3d, add, mul, addSqrt, add3, addSqrt3 := None, None, None, None, None, None, None;
    }

    /**
      `fastfilters_linalg_init`: the combinations and `ev2d` use AVX when the AVX flag is set
      and the default routines otherwise; `ev3d` prefers AVX2 over AVX over the default.
    */
    method Init(flags: Cpu.Flags)
      modifies this
      ensures var v := if flags.Check(Cpu.FeatureAvx) then Avx else Default;
              && add == Some(v) && add3 == Some(v) && mul == Some(v)
              && addSqrt == Some(v) && addSqrt3 == Some(v) && ev2d == Some(v)
      ensures ev3d == Some(if flags.Check(Cpu.FeatureAvx2) then Avx2
                           else if flags.Check(Cpu.FeatureAvx) then Avx else Default)
    {
      var v := if flags.Check(Cpu.FeatureAvx) then Avx else Default;
      add, add3, mul, addSqrt, addSqrt3, ev2d := Some(v), Some(v), Some(v), Some(v), Some(v), Some(v);
      if flags.Check(Cpu.FeatureAvx2) {
        ev3d := Some(Avx2);
      } else if flags.Check(Cpu.FeatureAvx) {
        ev3d := Some(Avx);
      } else {
        ev3d := Some(Default);
      }
    }
  }
}
