/**
  The top-level `fastfilters/__init__.py`: the core module's functions plus a `gaussianSmoothing`
  that picks the 2-D or 3-D function with the same `__get_fn` rules as the wrappers of
  `src/python_fastfilters/__init__.py`, without any layout fix, and forwards order 0 and the
  window.
*/
module FastfiltersPackage {
  import opened Wrappers
  import opened PyArrays
  import PythonCore
  import PythonFastfilters

  /**
    The parameter names the core module's `gaussian2d` and `gaussian3d` accept: the input, the
    order and sigma (both bound under the name `arg`), and the window ratio.
  */
  const SmoothingParameters: seq<string> := ["input", "arg", "arg", "window_ratio"]

  /**
    The selected core function called with the input, the order and sigma positionally and
    the window passed under the given keyword: a keyword it does not declare raises TypeError.
  */
  function CallSmoothing(rank: Rank, a: NdArray, keyword: string): (r: Result<NdArray, PyError>)
    requires Valid(a)
    ensures keyword !in SmoothingParameters ==> r == Err(TypeError)
    ensures keyword in SmoothingParameters ==> r == CoreResult(CoreCall(Smoothing, rank, 0, a))
  {
    if keyword in SmoothingParameters then CoreResult(CoreCall(Smoothing, rank, 0, a)) else Err(TypeError)
  }

  /**
    `gaussianSmoothing` as written: a tagged array `__get_fn` cannot place raises
    NotImplementedError; an untagged array of unsupported rank gets the `NotImplementedError`
    object back, and calling it raises TypeError; and the function it does select is called with
    the keyword `window_size`, which the core module does not declare, so that raises TypeError
    too. No call returns an array.
  */
  function GaussianSmoothingAsWritten(a: NdArray): (r: Result<NdArray, PyError>)
    requires Valid(a)
    ensures r.Err?
    ensures r == Err(NotImplementedError) <==> a.tags.Some? && !PythonFastfilters.GetFnAsWritten(a).Select?
    ensures r != Err(NotImplementedError) ==> r == Err(TypeError)
  {
    match PythonFastfilters.GetFnAsWritten(a)
    case Raise => Err(NotImplementedError)
    case ReturnInstance => Err(TypeError)
    case Select(rank) => CallSmoothing(rank, a, "window_size")
  }

  /**
    `gaussianSmoothing` with `__get_fn` raising and the window passed under the core module's
    own name `window_ratio`: unsupported shapes end in NotImplementedError, and an untagged array is smoothed exactly when it has 2 or 3 axes, or 4 axes of which the
    last, the channel axis, has fewer than 8 entries.
  */
  function GaussianSmoothing(a: NdArray): (r: Result<NdArray, PyError>)
    requires Valid(a)
    ensures r.Err? ==> r.error in {NotImplementedError, RuntimeError}
    ensures r.Err? && r.error == NotImplementedError <==> !PythonFastfilters.GetFnAsWritten(a).Select?
    ensures a.tags.None? ==> (r.Ok? <==> |a.shape| in {2, 3} || (|a.shape| == 4 && a.shape[3] < PythonCore.MaxChannels))
    ensures r.Ok? ==> CContiguous(r.value) && r.value.shape == a.shape
  {
    match PythonFastfilters.GetFn(a)
    case Err(e) => Err(e)
    case Ok(rank) =>
      if a.tags.None? then
        PythonFastfilters.SelectedRankConverts(a);
        CallSmoothing(rank, a, "window_ratio")
      else CallSmoothing(rank, a, "window_ratio")
  }

  /**
    The two agree exactly where `__get_fn` raises: wherever it selects a function or returns the
    exception object, the version as written ends in TypeError and the corrected one does not.
  */
  lemma AgreeOnlyWhenRaised(a: NdArray)
    requires Valid(a)
    ensures GaussianSmoothing(a) == GaussianSmoothingAsWritten(a) <==> PythonFastfilters.GetFnAsWritten(a) == PythonFastfilters.Raise
  {
  }

  /** A C-contiguous untagged 3 × 5 array: as written, TypeError; corrected, smoothed to 3 × 5. */
  lemma TwoDimensional()
    ensures GaussianSmoothingAsWritten(NdArray([3, 5], [20, 4], true, None)) == Err(TypeError)
    ensures GaussianSmoothing(NdArray([3, 5], [20, 4], true, None)).Ok?
  {
  }

  /** A 1-D untagged array: as written, TypeError; corrected, NotImplementedError. */
  lemma OneDimensional()
    ensures GaussianSmoothingAsWritten(NdArray([5], [4], true, None)) == Err(TypeError)
    ensures GaussianSmoothing(NdArray([5], [4], true, None)) == Err(NotImplementedError)
  {
  }
}
