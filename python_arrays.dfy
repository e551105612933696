/**
  What the Python wrappers of the library see of an array, and what the compiled core module
  does with one.

  An array is its extents, its byte strides, whether its dtype is float32, and, for a tagged
  vigra array, the kind of every axis. The array operations the wrappers call (`squeeze`,
  `transpose`, `ascontiguousarray`, `rollaxis`, vigra's `taggedView`, `channels` and
  `axistags.index`) are given here by their effect on that description: vigra's own methods
  keep or permute the tags, while NumPy's `ascontiguousarray` returns a plain array without
  them. Element values are not modelled.
*/
module PyArrays {
  import opened Wrappers
  import PythonCore

  /** The axis kinds the wrappers test: spatial, channel, time, anything else. */
  datatype AxisKind = Space | Channels | Time | Other

  datatype NdArray = NdArray(shape: seq<nat>, strides: seq<int>, float32: bool, tags: Option<seq<AxisKind>>)

  /** One stride per axis, and one tag per axis when tagged. */
  predicate Valid(a: NdArray)
  {
    |a.strides| == |a.shape| && (a.tags.Some? ==> |a.tags.value| == |a.shape|)
  }

  /** The two implementations a wrapper chooses between. */
  datatype Rank = Fn2d | Fn3d

  /** The exceptions the wrappers end in. C++ exceptions of the core module surface as RuntimeError. */
  datatype PyError = AssertionError | NotImplementedError | TypeError | ValueError | RuntimeError

  /** The filter families of the core module. */
  datatype Filter = Smoothing | GradientMagnitude | HessianEigenvalues | Laplacian | TensorEigenvalues

  predicate IsEigen(f: Filter)
  {
    f == HessianEigenvalues || f == TensorEigenvalues
  }

  /** A call into the core module: filter, chosen implementation, derivative order, input. */
  datatype CoreCall = CoreCall(filter: Filter, rank: Rank, order: nat, input: NdArray)

  /** `flags['C_CONTIGUOUS']` for a float32 array. */
  predicate CContiguous(a: NdArray)
  {
    a.strides == PythonCore.CStrides(a.shape)
  }

  /** A fresh C-contiguous float32 array of the given shape, as the core module returns. */
  function Fresh(shape: seq<nat>): (r: NdArray)
    ensures Valid(r) && CContiguous(r) && r.shape == shape
  {
    NdArray(shape, PythonCore.CStrides(shape), true, None)
  }

  /**
    `np.ascontiguousarray` of a float32 array: same extents, C strides, and a plain NumPy array,
    so a vigra array's axis tags are lost.
  */
  function AsContiguous(a: NdArray): (r: NdArray)
    requires Valid(a)
    ensures Valid(r) && CContiguous(r) && r.shape == a.shape && r.float32 == a.float32 && r.tags == None
  {
    NdArray(a.shape, PythonCore.CStrides(a.shape), a.float32, None)
  }

  /** `vigra.taggedView(np.ascontiguousarray(a), a.axistags)`: the copy with the tags put back. */
  function TaggedContiguous(a: NdArray): (r: NdArray)
    requires Valid(a)
    ensures Valid(r) && CContiguous(r) && r.shape == a.shape && r.float32 == a.float32 && r.tags == a.tags
  {
    AsContiguous(a).(tags := a.tags)
  }

  // ---------------------------------------------------------------------------------------
  // Axis permutations

  /** The elements of s at the given positions, in order: NumPy's axis selection. */
  function Permute<T>(s: seq<T>, axes: seq<nat>): (r: seq<T>)
    requires forall i :: 0 <= i < |axes| ==> axes[i] < |s|
    ensures |r| == |axes| && forall i :: 0 <= i < |axes| ==> r[i] == s[axes[i]]
  {
    seq(|axes|, i requires 0 <= i < |axes| => s[axes[i]])
  }

  /** p lists every position below n exactly once. */
  predicate IsPermutation(p: seq<nat>, n: nat)
  {
    && |p| == n
    && (forall i :: 0 <= i < n ==> p[i] < n)
    && (forall i, j :: 0 <= i < j < n ==> p[i] != p[j])
    && (forall v :: 0 <= v < n ==> v in p)
  }

  /** `p[::-1]`. */
  function Reverse(p: seq<nat>): (r: seq<nat>)
    ensures |r| == |p| && forall i :: 0 <= i < |p| ==> r[i] == p[|p| - 1 - i]
  {
    seq(|p|, i requires 0 <= i < |p| => p[|p| - 1 - i])
  }

  /** The position of v in p. */
  function IndexOf(p: seq<nat>, v: nat): (r: nat)
    requires v in p
    ensures r < |p| && p[r] == v && forall i :: 0 <= i < r ==> p[i] != v
  {
    if p[0] == v then 0 else 1 + IndexOf(p[1..], v)
  }

  /** The inverse permutation: position v holds the index where p holds v. */
  function Inverse(p: seq<nat>): (r: seq<nat>)
    requires IsPermutation(p, |p|)
    ensures |r| == |p| && forall v :: 0 <= v < |p| ==> r[v] < |p| && p[r[v]] == v
  {
    seq(|p|, v requires 0 <= v < |p| => IndexOf(p, v))
  }

  /** Reversing keeps a permutation a permutation. */
  lemma ReverseIsPermutation(p: seq<nat>, n: nat)
    requires IsPermutation(p, n)
    ensures IsPermutation(Reverse(p), n)
  {
    var r := Reverse(p);
    forall v | 0 <= v < n
      ensures v in r
    {
      var k := IndexOf(p, v);
      assert r[n - 1 - k] == v;
    }
  }

  /** The inverse of a permutation is one, and undoes it from both sides. */
  lemma InverseIsPermutation(p: seq<nat>)
    requires IsPermutation(p, |p|)
    ensures IsPermutation(Inverse(p), |p|)
    ensures forall i :: 0 <= i < |p| ==> Inverse(p)[p[i]] == i
  {
    var q, n := Inverse(p), |p|;
    forall i | 0 <= i < n
      ensures q[p[i]] == i
    {
      var k := q[p[i]];
      assert p[k] == p[i];
    }
    forall v | 0 <= v < n
      ensures v in q
    {
      assert q[p[v]] == v;
    }
  }

  /** Selecting by p and then by its inverse gives back the original sequence. */
  lemma InverseRestores<T>(s: seq<T>, p: seq<nat>)
    requires IsPermutation(p, |s|)
    ensures Permute(Permute(s, p), Inverse(p)) == s
  {
    var t := Permute(Permute(s, p), Inverse(p));
    forall v | 0 <= v < |s|
      ensures t[v] == s[v]
    {
      assert Permute(s, p)[Inverse(p)[v]] == s[p[Inverse(p)[v]]];
    }
  }

  /** Appending an element and its position to a selection appends that element. */
  lemma PermuteAppend<T>(u: seq<T>, x: T, p: seq<nat>)
    requires forall i :: 0 <= i < |p| ==> p[i] < |u|
    ensures Permute(u + [x], p + [|u|]) == Permute(u, p) + [x]
  {
  }

  /** The axis tags a vigra array carries after its axes are selected in the given order. */
  function PermutedTags(tags: Option<seq<AxisKind>>, axes: seq<nat>): Option<seq<AxisKind>>
    requires tags.Some? ==> forall i :: 0 <= i < |axes| ==> axes[i] < |tags.value|
  {
    if tags.None? then None else Some(Permute(tags.value, axes))
  }

  /** `a.transpose(axes)`: NumPy raises ValueError unless axes permute the array's axes. */
  function Transpose(a: NdArray, axes: seq<nat>): (r: Result<NdArray, PyError>)
    requires Valid(a)
    ensures r.Ok? <==> IsPermutation(axes, |a.shape|)
    ensures r.Err? ==> r.error == ValueError
    ensures r.Ok? ==> Valid(r.value) && r.value.shape == Permute(a.shape, axes)
                      && r.value.strides == Permute(a.strides, axes) && r.value.float32 == a.float32
    ensures r.Ok? ==> r.value.tags == PermutedTags(a.tags, axes)
  {
    if IsPermutation(axes, |a.shape|) then
      Ok(NdArray(Permute(a.shape, axes), Permute(a.strides, axes), a.float32, PermutedTags(a.tags, axes)))
    else Err(ValueError)
  }

  /** `np.rollaxis(a, 0, a.ndim)`: the leading axis moved to the end. */
  function Rolled(a: NdArray): (r: NdArray)
    requires Valid(a) && |a.shape| > 0
    ensures Valid(r) && r.shape == a.shape[1..] + [a.shape[0]]
  {
    NdArray(a.shape[1..] + [a.shape[0]], a.strides[1..] + [a.strides[0]], a.float32,
            if a.tags.None? then None else Some(a.tags.value[1..] + [a.tags.value[0]]))
  }

  // ---------------------------------------------------------------------------------------
  // Squeezing

  /** The positions of the axes whose extent is not 1, in order. */
  function NonUnitAxes(s: seq<nat>): (r: seq<nat>)
    ensures forall k :: 0 <= k < |r| ==> r[k] < |s| && s[r[k]] != 1
    ensures |r| <= |s|
  {
    if |s| == 0 then []
    else NonUnitAxes(s[..|s| - 1]) + (if s[|s| - 1] != 1 then [|s| - 1] else [])
  }

  /** `a.squeeze()`: the axes of extent 1 removed, with their strides and tags. */
  function Squeeze(a: NdArray): (r: NdArray)
    requires Valid(a)
    ensures Valid(r) && forall k :: 0 <= k < |r.shape| ==> r.shape[k] != 1
  {
    var keep := NonUnitAxes(a.shape);
    NdArray(Permute(a.shape, keep), Permute(a.strides, keep), a.float32,
            if a.tags.None? then None else Some(Permute(a.tags.value, keep)))
  }

  function Identity(n: nat): (r: seq<nat>)
    ensures |r| == n && forall i :: 0 <= i < n ==> r[i] == i
  {
    seq(n, i => i)
  }

  /** Without an axis of extent 1 every axis is kept. */
  lemma {:induction false} NoUnitAxesKept(s: seq<nat>)
    requires forall i :: 0 <= i < |s| ==> s[i] != 1
    ensures NonUnitAxes(s) == Identity(|s|)
  {
    if |s| > 0 {
      NoUnitAxesKept(s[..|s| - 1]);
      assert Identity(|s| - 1) + [|s| - 1] == Identity(|s|);
    }
  }

  /** Squeezing an array without an axis of extent 1 changes nothing. */
  lemma SqueezeNoUnitAxes(a: NdArray)
    requires Valid(a) && forall i :: 0 <= i < |a.shape| ==> a.shape[i] != 1
    ensures Squeeze(a) == a
  {
    NoUnitAxesKept(a.shape);
    assert Permute(a.shape, Identity(|a.shape|)) == a.shape;
    assert Permute(a.strides, Identity(|a.shape|)) == a.strides;
    if a.tags.Some? {
      assert Permute(a.tags.value, Identity(|a.shape|)) == a.tags.value;
    }
  }

  // ---------------------------------------------------------------------------------------
  // The core module as the wrappers see it

  /**
    What a core filter function returns: the input is first made a C-contiguous float32 array
    (pybind11's `c_style | forcecast`) and converted; a failed conversion raises; the
    eigenvalue filters return the component-first layout, the others an array shaped like the
    input. The library call itself is taken to succeed.
  */
  function CoreResult(c: CoreCall): (r: Result<NdArray, PyError>)
    requires Valid(c.input)
    ensures r.Err? ==> r.error == RuntimeError
    ensures r.Ok? ==> Valid(r.value) && CContiguous(r.value)
    ensures r.Ok? && !IsEigen(c.filter) ==> r.value.shape == c.input.shape
    ensures r.Ok? && IsEigen(c.filter) ==> |r.value.shape| >= 3
  {
    var s := c.input.shape;
    var b := PythonCore.Buffer(0, s, PythonCore.CStrides(s));
    var d := if c.rank == Fn2d then 2 else 3;
    if PythonCore.ConversionError(b, d).Some? then Err(RuntimeError)
    else if IsEigen(c.filter) then
      var ch := PythonCore.ChannelCount(b, d).value;
      Ok(Fresh(if d == 2 then PythonCore.EvShape2d(s[1], s[0], ch) else PythonCore.EvShape3d(s[2], s[1], s[0], ch)))
    else Ok(Fresh(s))
  }

  /**
    What the function a wrapper selected returns: the core result, with the component axis of
    an eigenvalue result rolled to the end (`np.rollaxis(res, 0, len(res.shape))`).
  */
  function Wrapped(c: CoreCall): (r: Result<NdArray, PyError>)
    requires Valid(c.input)
    ensures r.Ok? ==> Valid(r.value)
    ensures r.Ok? && !IsEigen(c.filter) ==> r.value.shape == c.input.shape
  {
    var res := CoreResult(c);
    if res.Ok? && IsEigen(c.filter) then Ok(Rolled(res.value)) else res
  }

  /** The component count of an eigenvalue result. */
  function Components(r: Rank): nat
  {
    if r == Fn2d then 2 else 3
  }

  /**
    For an input without an axis of extent 1, an eigenvalue result with its component axis
    rolled to the end has the input's shape followed by one axis of 2 or 3 components.
  */
  lemma EigenComponentsLast(c: CoreCall)
    requires Valid(c.input) && IsEigen(c.filter) && CoreResult(c).Ok?
    requires forall i :: 0 <= i < |c.input.shape| ==> c.input.shape[i] != 1
    ensures |CoreResult(c).value.shape| > 0
    ensures Rolled(CoreResult(c).value).shape == c.input.shape + [Components(c.rank)]
  {
    var s := c.input.shape;
    var b := PythonCore.Buffer(0, s, PythonCore.CStrides(s));
    var d := if c.rank == Fn2d then 2 else 3;
    var ch := PythonCore.ChannelCount(b, d).value;
    assert |s| == d ==> ch == 1;
    assert |s| != d ==> |s| == d + 1 && ch == s[d];
    var e := CoreResult(c).value.shape;
    if d == 2 {
      assert e == PythonCore.EvShape2d(s[1], s[0], ch);
      if |s| == 2 {
        assert s == [s[0], s[1]];
      } else {
        assert s == [s[0], s[1], s[2]];
      }
    } else {
      assert e == PythonCore.EvShape3d(s[2], s[1], s[0], ch);
      if |s| == 3 {
        assert s == [s[0], s[1], s[2]];
      } else {
        assert s == [s[0], s[1], s[2], s[3]];
      }
    }
  }
}
