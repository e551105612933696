/**
  The NumPy-facing wrappers of `src/python_fastfilters/__init__.py`.

  `__get_fn` picks the 2-D or the 3-D function from the array's rank, its last extent or its
  axis tags; `__p_fix_array` hands the wrapped function a float32 array that is not
  C-contiguous with its axes ordered by decreasing stride, copying it when the last axis is
  still not dense, and transposes the result back afterwards.

  Two behaviours of that file are modelled as written and beside a corrected version:
  `__get_fn` returns, instead of raising, a `NotImplementedError` for an untagged array of
  unsupported rank, so the caller's call of it raises `TypeError`; and the result is transposed
  back with the reversed permutation, which is not the inverse one.
*/
module PythonFastfilters {
  import opened Wrappers
  import opened PyArrays
  import PythonCore

  /** What `__get_fn` does: return a function, raise, or return an exception object. */
  datatype Selection = Select(rank: Rank) | Raise | ReturnInstance

  /** `__get_fn` as written. */
  function GetFnAsWritten(a: NdArray): (r: Selection)
    requires Valid(a)
    ensures a.tags.Some? ==> r != ReturnInstance
    ensures a.tags.None? ==> r != Raise && (r == ReturnInstance <==> |a.shape| !in {2, 3, 4})
  {
    var n := |a.shape|;
    if a.tags.Some? then
      var t := a.tags.value;
      if n == 2 then Select(Fn2d)
      else if n == 3 then
        if t[2] == Space then Select(Fn3d)
        else if t[2] == Channels then Select(Fn2d)
        else Raise
      else if n == 4 && t[3] == Channels then Select(Fn3d)
      else Raise
    else
      if n == 2 then Select(Fn2d)
      else if n == 3 then
        if a.shape[2] > 3 then Select(Fn3d) else Select(Fn2d)
      else if n == 4 then Select(Fn3d)
      else ReturnInstance
  }

  /** `__get_fn` raising `NotImplementedError` wherever the source does not pick a function. */
  function GetFn(a: NdArray): (r: Result<Rank, PyError>)
    requires Valid(a)
    ensures r.Err? ==> r.error == NotImplementedError
    ensures GetFnAsWritten(a).Select? <==> r.Ok?
    ensures r.Ok? ==> r.value == GetFnAsWritten(a).rank
  {
    match GetFnAsWritten(a)
    case Select(rank) => Ok(rank)
    case _ => Err(NotImplementedError)
  }

  /**
    An untagged array is handed to a function whose conversion accepts its C-contiguous copy,
    except for a 4-D array whose trailing channel axis has 8 or more entries: ranks 2 and 3 go
    to the 2-D function (the third axis as at most 3 channels), a longer third axis and rank 4
    to the 3-D one.
  */
  lemma SelectedRankConverts(a: NdArray)
    requires Valid(a) && a.tags.None? && GetFnAsWritten(a).Select?
    ensures var b := PythonCore.Buffer(0, a.shape, PythonCore.CStrides(a.shape));
            var d := if GetFnAsWritten(a).rank == Fn2d then 2 else 3;
            PythonCore.ConversionError(b, d) == None <==> |a.shape| != 4 || a.shape[3] < PythonCore.MaxChannels
  {
    var b := PythonCore.Buffer(0, a.shape, PythonCore.CStrides(a.shape));
    PythonCore.ContiguousConversion2d(b);
    PythonCore.ContiguousConversion3d(b);
  }

  // ---------------------------------------------------------------------------------------
  // __p_fix_array

  /** p is what `np.argsort(strides)` returns: a permutation listing the strides in ascending order. */
  predicate Argsorted(strides: seq<int>, p: seq<nat>)
  {
    IsPermutation(p, |strides|) && forall i, j :: 0 <= i < j < |p| ==> strides[p[i]] <= strides[p[j]]
  }

  /**
    The preamble of `__p_fix_array`. Only a float32 array that is not C-contiguous is touched:
    its axes are put in order of decreasing stride, and the result is copied to C order when its
    last axis is still not dense. The copy is a plain NumPy array: a vigra array loses its axis
    tags there, and `__get_fn` then chooses from the extents alone. The permutation used is
    returned with the array.
  */
  function FixLayout(a: NdArray, argsort: seq<nat>): (r: (NdArray, seq<nat>))
    requires Valid(a) && Argsorted(a.strides, argsort)
    ensures Valid(r.0) && r.0.float32 == a.float32
    ensures !(a.float32 && !CContiguous(a)) ==> r == (a, [])
    ensures a.float32 && !CContiguous(a) ==>
              var n := |a.shape|;
              && n > 0 && IsPermutation(r.1, n)
              && (forall i, j :: 0 <= i < j < n ==> a.strides[r.1[i]] >= a.strides[r.1[j]])
              && r.0.shape == Permute(a.shape, r.1)
              && r.0.strides[n - 1] == PythonCore.FloatBytes
              && (r.0.strides == Permute(a.strides, r.1) <==> Permute(a.strides, r.1)[n - 1] == PythonCore.FloatBytes)
              && (r.0.strides == Permute(a.strides, r.1) ==> r.0.tags == PermutedTags(a.tags, r.1))
              && (r.0.strides != Permute(a.strides, r.1) ==> CContiguous(r.0) && r.0.tags == None)
  {
    if a.float32 && !CContiguous(a) then
      ReversedArgsort(a.strides, argsort);
      var perm := Reverse(argsort);
      var t := Transpose(a, perm).value;
      if t.strides[|t.strides| - 1] != PythonCore.FloatBytes then (AsContiguous(t), perm) else (t, perm)
    else (a, [])
  }

  /**
    A tagged float32 array of extents 4 × 6 × 5 with axes time, space, space and strides 8, 32,
    192 is reordered to 5 × 6 × 4, copied, and so loses its tags: `__get_fn` then picks the 3-D
    function from the last extent 4, where the reordered tagged array, whose last axis is time,
    would have raised NotImplementedError.
  */
  lemma CopyDropsTags()
    ensures var a := NdArray([4, 6, 5], [8, 32, 192], true, Some([Time, Space, Space]));
            var u := NdArray([5, 6, 4], [192, 32, 8], true, Some([Space, Space, Time]));
            && Argsorted(a.strides, [0, 1, 2])
            && FixLayout(a, [0, 1, 2]) == (NdArray([5, 6, 4], PythonCore.CStrides([5, 6, 4]), true, None), [2, 1, 0])
            && GetFnAsWritten(FixLayout(a, [0, 1, 2]).0) == Select(Fn3d)
            && Transpose(a, [2, 1, 0]) == Ok(u) && GetFnAsWritten(u) == Raise
  {
    var a := NdArray([4, 6, 5], [8, 32, 192], true, Some([Time, Space, Space]));
    TimeFirstReordered();
    var u := NdArray([5, 6, 4], [192, 32, 8], true, Some([Space, Space, Time]));
    assert FixLayout(a, [0, 1, 2]) == (AsContiguous(u), [2, 1, 0]);
  }

  /** The time-first array is not C-contiguous, and its strides sort in axis order. */
  lemma TimeFirstLayout()
    ensures var a := NdArray([4, 6, 5], [8, 32, 192], true, Some([Time, Space, Space]));
            !CContiguous(a) && Argsorted(a.strides, [0, 1, 2])
  {
    PythonCore.CStridesOfThree(4, 6, 5);
  }

  /** Ordered by decreasing stride, its axes are space, space, time, with a last stride of two floats. */
  lemma TimeFirstReordered()
    ensures var a := NdArray([4, 6, 5], [8, 32, 192], true, Some([Time, Space, Space]));
            && !CContiguous(a) && Argsorted(a.strides, [0, 1, 2]) && Reverse([0, 1, 2]) == [2, 1, 0]
            && Transpose(a, [2, 1, 0]) == Ok(NdArray([5, 6, 4], [192, 32, 8], true, Some([Space, Space, Time])))
  {
    var a := NdArray([4, 6, 5], [8, 32, 192], true, Some([Time, Space, Space]));
    TimeFirstLayout();
    assert Reverse([0, 1, 2]) == [2, 1, 0];
    ReverseIsPermutation([0, 1, 2], 3);
    var tags := Permute([Time, Space, Space], [2, 1, 0]);
    assert tags[0] == Space && tags[1] == Space && tags[2] == Time;
    assert tags == [Space, Space, Time];
    assert Permute(a.shape, [2, 1, 0]) == [5, 6, 4];
    assert Permute(a.strides, [2, 1, 0]) == [192, 32, 8];
  }

  /** `np.argsort(strides)[::-1]` lists the axes in order of decreasing stride. */
  lemma ReversedArgsort(strides: seq<int>, p: seq<nat>)
    requires Argsorted(strides, p)
    ensures IsPermutation(Reverse(p), |strides|)
    ensures forall i, j :: 0 <= i < j < |p| ==> strides[Reverse(p)[i]] >= strides[Reverse(p)[j]]
  {
    ReverseIsPermutation(p, |strides|);
  }

  /** The result transposed back as written: with `permutation[::-1]`. */
  function RestoreAsWritten(res: NdArray, perm: seq<nat>): (r: Result<NdArray, PyError>)
    requires Valid(res)
    ensures |perm| == 0 ==> r == Ok(res)
    ensures |perm| > 0 ==> (r.Ok? <==> IsPermutation(Reverse(perm), |res.shape|))
    ensures r.Err? ==> r.error == ValueError
    ensures |perm| > 0 && r.Ok? ==> r.value.shape == Permute(res.shape, Reverse(perm))
  {
    if |perm| > 0 then Transpose(res, Reverse(perm)) else Ok(res)
  }

  /** The axes that undo perm on an array of the given rank, trailing extra axes left in place. */
  function RestoreAxes(perm: seq<nat>, rank: nat): (r: seq<nat>)
    requires IsPermutation(perm, |perm|) && |perm| <= rank
    ensures |r| == rank
  {
    Inverse(perm) + seq(rank - |perm|, i => |perm| + i)
  }

  /** The restoring axes are a permutation. */
  lemma RestoreAxesPermutation(perm: seq<nat>, rank: nat)
    requires IsPermutation(perm, |perm|) && |perm| <= rank
    ensures IsPermutation(RestoreAxes(perm, rank), rank)
  {
    var n := |perm|;
    var q := Inverse(perm);
    var r := RestoreAxes(perm, rank);
    InverseIsPermutation(perm);
    assert forall i :: 0 <= i < n ==> r[i] == q[i];
    assert forall i :: n <= i < rank ==> r[i] == i;
    forall v | 0 <= v < rank
      ensures v in r
    {
      if v < n {
        assert v in q;
        var k := IndexOf(q, v);
        assert r[k] == v;
      } else {
        assert r[v] == v;
      }
    }
  }

  /** The result transposed back with the inverse permutation, extra trailing axes kept last. */
  function Restore(res: NdArray, perm: seq<nat>): (r: Result<NdArray, PyError>)
    requires Valid(res) && IsPermutation(perm, |perm|)
    ensures r.Ok? <==> |perm| <= |res.shape|
    ensures r.Err? ==> r.error == ValueError
    ensures |perm| == 0 ==> r == Ok(res)
    ensures 0 < |perm| == |res.shape| ==> r.value.shape == Permute(res.shape, Inverse(perm))
  {
    if |perm| == 0 then Ok(res)
    else if |perm| <= |res.shape| then
      RestoreAxesPermutation(perm, |res.shape|);
      if |perm| == |res.shape| then RestoreAxesSameRank(perm); Transpose(res, RestoreAxes(perm, |res.shape|))
      else Transpose(res, RestoreAxes(perm, |res.shape|))
    else Err(ValueError)
  }

  /** The function `__get_fn` returned, applied: calling the returned exception object raises TypeError. */
  function ApplyAsWritten(t: NdArray, f: Filter): (r: Result<NdArray, PyError>)
    requires Valid(t)
    ensures GetFnAsWritten(t) == Raise ==> r == Err(NotImplementedError)
    ensures GetFnAsWritten(t) == ReturnInstance ==> r == Err(TypeError)
    ensures GetFnAsWritten(t).Select? ==> r.Err? ==> r.error == RuntimeError
    ensures r.Ok? ==> Valid(r.value) && (!IsEigen(f) ==> r.value.shape == t.shape)
  {
    match GetFnAsWritten(t)
    case Raise => Err(NotImplementedError)
    case ReturnInstance => Err(TypeError)
    case Select(rank) => Wrapped(CoreCall(f, rank, 0, t))
  }

  /**
    A decorated entry point as written (`gaussianSmoothing` forwards order 0; the eigenvalue
    entry points roll the component axis last); argsort is `np.argsort(array.strides)`.
  */
  function FilterAsWritten(a: NdArray, argsort: seq<nat>, f: Filter): (r: Result<NdArray, PyError>)
    requires Valid(a) && Argsorted(a.strides, argsort)
    ensures !(a.float32 && !CContiguous(a)) ==> r == ApplyAsWritten(a, f)
    ensures r.Err? ==> r.error in {NotImplementedError, TypeError, RuntimeError, ValueError}
  {
    var (t, perm) := FixLayout(a, argsort);
    var res := ApplyAsWritten(t, f);
    if res.Err? then res else RestoreAsWritten(res.value, perm)
  }

  /** A decorated entry point with `__get_fn` raising and the result transposed back by the inverse. */
  function Filter(a: NdArray, argsort: seq<nat>, f: Filter): (r: Result<NdArray, PyError>)
    requires Valid(a) && Argsorted(a.strides, argsort)
    ensures !(a.float32 && !CContiguous(a)) ==> r == (match GetFn(a)
                                                     case Err(e) => Err(e)
                                                     case Ok(rank) => Wrapped(CoreCall(f, rank, 0, a)))
    ensures r.Err? ==> r.error in {NotImplementedError, RuntimeError, ValueError}
  {
    var (t, perm) := FixLayout(a, argsort);
    match GetFn(t)
    case Err(e) => Err(e)
    case Ok(rank) =>
      var res := Wrapped(CoreCall(f, rank, 0, t));
      if res.Err? then res else Restore(res.value, perm)
  }

  // ---------------------------------------------------------------------------------------
  // The two behaviours as written

  /** An untagged 1-D array: `__get_fn` returns the exception and calling it raises TypeError. */
  lemma OneDimensionalIsTypeError()
    ensures FilterAsWritten(NdArray([5], [4], true, None), [0], Smoothing) == Err(TypeError)
  {
    var a := NdArray([5], [4], true, None);
    PythonCore.CStridesOfOne(5);
    assert CContiguous(a);
    assert Argsorted(a.strides, [0]);
  }

  /**
    With two axes the reversed permutation composed with the permutation is always the swap:
    every non-C-contiguous 2-D float32 result comes back with its axes exchanged.
  */
  lemma TwoAxisRestoreSwaps<T>(s: seq<T>, p: seq<nat>)
    requires |s| == 2 && IsPermutation(p, 2)
    ensures Permute(Permute(s, p), Reverse(p)) == [s[1], s[0]]
  {
    assert p == [0, 1] || p == [1, 0] by {
      assert p[0] < 2 && p[1] < 2 && p[0] != p[1];
    }
  }

  /** A Fortran-ordered 3 × 5 float32 array has its axes swapped by the preamble, no copy needed. */
  lemma FortranLayout()
    ensures FixLayout(NdArray([3, 5], [4, 12], true, None), [0, 1]) == (NdArray([5, 3], [12, 4], true, None), [1, 0])
  {
    var a := NdArray([3, 5], [4, 12], true, None);
    PythonCore.CStridesOfTwo(3, 5);
    assert !CContiguous(a);
    assert Argsorted(a.strides, [0, 1]);
    ReverseIsPermutation([0, 1], 2);
    assert Reverse([0, 1]) == [1, 0];
    var t := Transpose(a, [1, 0]).value;
    assert t.shape == [5, 3] && t.strides == [12, 4];
  }

  /** The swapped 5 × 3 array is C-contiguous and the 2-D function accepts it. */
  lemma SwappedAccepted(f: Filter)
    ensures var t := NdArray([5, 3], [12, 4], true, None);
            && GetFnAsWritten(t) == Select(Fn2d)
            && CoreResult(CoreCall(f, Fn2d, 0, t)).Ok?
            && CoreResult(CoreCall(f, Fn2d, 0, t)).value.shape ==
               (if IsEigen(f) then [2, 5, 3] else [5, 3])
  {
    var b := PythonCore.Buffer(0, [5, 3], PythonCore.CStrides([5, 3]));
    PythonCore.ContiguousConversion2d(b);
    assert PythonCore.ChannelCount(b, 2) == Some(1);
  }

  /** The steps of `FilterAsWritten` for a known layout and a known result. */
  lemma AsWrittenSteps(a: NdArray, argsort: seq<nat>, f: Filter, t: NdArray, perm: seq<nat>, res: NdArray)
    requires Valid(a) && Argsorted(a.strides, argsort)
    requires FixLayout(a, argsort) == (t, perm) && ApplyAsWritten(t, f) == Ok(res)
    ensures Valid(res) && FilterAsWritten(a, argsort, f) == RestoreAsWritten(res, perm)
  {
  }

  /** Transposing back with the reverse of the swap [1, 0] leaves a 5 × 3 result 5 × 3. */
  lemma SwapRestoredAsWritten(res: NdArray)
    requires Valid(res) && res.shape == [5, 3]
    ensures RestoreAsWritten(res, [1, 0]).Ok? && RestoreAsWritten(res, [1, 0]).value.shape == [5, 3]
  {
    assert Reverse([1, 0]) == [0, 1];
    assert IsPermutation([0, 1], 2);
  }

  /** Transposing back a result with three axes by a two-axis permutation raises ValueError. */
  lemma ThreeAxesRestoredAsWritten(res: NdArray)
    requires Valid(res) && |res.shape| == 3
    ensures RestoreAsWritten(res, [1, 0]) == Err(ValueError)
  {
  }

  /** A Fortran-ordered 3 × 5 float32 array: as written, the smoothed result comes back 5 × 3. */
  lemma FortranSmoothingTransposed()
    ensures var r := FilterAsWritten(NdArray([3, 5], [4, 12], true, None), [0, 1], Smoothing);
            r.Ok? && r.value.shape == [5, 3]
  {
    var a := NdArray([3, 5], [4, 12], true, None);
    var t := NdArray([5, 3], [12, 4], true, None);
    FortranLayout();
    SwappedAccepted(Smoothing);
    var c := CoreCall(Smoothing, Fn2d, 0, t);
    assert Wrapped(c) == CoreResult(c);
    var res := CoreResult(c).value;
    assert ApplyAsWritten(t, Smoothing) == Ok(res);
    AsWrittenSteps(a, [0, 1], Smoothing, t, [1, 0], res);
    SwapRestoredAsWritten(res);
  }

  /**
    The same array through an eigenvalue entry point: the result has one axis more than the
    permutation, so transposing it back raises ValueError.
  */
  lemma FortranEigenvaluesRaise()
    ensures FilterAsWritten(NdArray([3, 5], [4, 12], true, None), [0, 1], HessianEigenvalues) == Err(ValueError)
  {
    var a := NdArray([3, 5], [4, 12], true, None);
    var t := NdArray([5, 3], [12, 4], true, None);
    FortranLayout();
    SwappedAccepted(HessianEigenvalues);
    var res := Wrapped(CoreCall(HessianEigenvalues, Fn2d, 0, t)).value;
    AsWrittenSteps(a, [0, 1], HessianEigenvalues, t, [1, 0], res);
    ThreeAxesRestoredAsWritten(res);
  }

  // ---------------------------------------------------------------------------------------
  // The corrected wrappers

  /** Corrected, no entry point ends in TypeError: unsupported shapes raise NotImplementedError. */
  lemma FilterNeverTypeError(a: NdArray, argsort: seq<nat>, f: Filter)
    requires Valid(a) && Argsorted(a.strides, argsort)
    ensures Filter(a, argsort, f) != Err(TypeError)
    ensures GetFn(FixLayout(a, argsort).0).Err? ==> Filter(a, argsort, f) == Err(NotImplementedError)
  {
    var (t, perm) := FixLayout(a, argsort);
    if GetFn(t).Ok? {
      var res := Wrapped(CoreCall(f, GetFn(t).value, 0, t));
      if res.Ok? && |perm| > 0 && |perm| <= |res.value.shape| {
        RestoreAxesPermutation(perm, |res.value.shape|);
      }
    }
  }

  /** Corrected, a filter that keeps the shape returns the input's shape, whatever its strides. */
  lemma FilterKeepsShape(a: NdArray, argsort: seq<nat>, f: Filter)
    requires Valid(a) && Argsorted(a.strides, argsort) && !IsEigen(f)
    requires Filter(a, argsort, f).Ok?
    ensures Filter(a, argsort, f).value.shape == a.shape
  {
    var (t, perm) := FixLayout(a, argsort);
    if |perm| > 0 {
      var res := Wrapped(CoreCall(f, GetFn(t).value, 0, t)).value;
      assert res.shape == Permute(a.shape, perm);
      RestoreAxesSameRank(perm);
      InverseRestores(a.shape, perm);
    }
  }

  /**
    Corrected, an eigenvalue filter on an array without an axis of extent 1 returns the input's
    shape followed by the component axis, whatever the input's strides.
  */
  lemma EigenvaluesComponentsLast(a: NdArray, argsort: seq<nat>, f: Filter)
    requires Valid(a) && Argsorted(a.strides, argsort) && IsEigen(f)
    requires forall i :: 0 <= i < |a.shape| ==> a.shape[i] != 1
    requires Filter(a, argsort, f).Ok?
    ensures Filter(a, argsort, f).value.shape == a.shape + [Components(GetFn(FixLayout(a, argsort).0).value)]
  {
    var (t, perm) := FixLayout(a, argsort);
    var rank := GetFn(t).value;
    var c := CoreCall(f, rank, 0, t);
    if |perm| > 0 {
      NonUnitPermuted(a.shape, perm);
    }
    EigenComponentsLast(c);
    if |perm| > 0 {
      var res := Wrapped(c).value;
      assert res.shape == Permute(a.shape, perm) + [Components(rank)];
      assert Filter(a, argsort, f) == Restore(res, perm);
      PermuteAppend(Permute(a.shape, perm), Components(rank), Inverse(perm));
      RestoreAxesOneMore(perm);
      assert Restore(res, perm) == Transpose(res, Inverse(perm) + [|perm|]);
      InverseRestores(a.shape, perm);
    }
  }

  /** Permuting the extents keeps every axis of extent other than 1. */
  lemma NonUnitPermuted(s: seq<nat>, p: seq<nat>)
    requires IsPermutation(p, |s|) && forall i :: 0 <= i < |s| ==> s[i] != 1
    ensures forall i :: 0 <= i < |p| ==> Permute(s, p)[i] != 1
  {
  }

  lemma RestoreAxesSameRank(perm: seq<nat>)
    requires IsPermutation(perm, |perm|)
    ensures RestoreAxes(perm, |perm|) == Inverse(perm)
  {
  }

  lemma RestoreAxesOneMore(perm: seq<nat>)
    requires IsPermutation(perm, |perm|)
    ensures RestoreAxes(perm, |perm| + 1) == Inverse(perm) + [|perm|]
  {
    assert seq(1, i => |perm| + i) == [|perm|];
  }
}
