/**
  The package wrappers of `src/python/__init__.py`.

  Every entry point is decorated: a tagged array is made C-contiguous and squeezed before the
  wrapped function sees it, an untagged array must not have an axis of extent 1. The wrapped
  function asks `__get_fn` for the 2-D or 3-D core function, which a tagged array only passes
  with a single channel and a single time step; the squeezed rank decides. `gaussianDerivative`
  accepts one order or one equal order per axis.
*/
module PythonPackage {
  import opened Wrappers
  import opened PyArrays
  import PythonCore

  /** The first position holding the given kind, or the length when none does (vigra's `axistags.index`). */
  function FirstIndex(tags: seq<AxisKind>, kind: AxisKind): (r: nat)
    ensures r <= |tags| && (r < |tags| ==> tags[r] == kind)
    ensures forall i :: 0 <= i < r ==> tags[i] != kind
  {
    if |tags| == 0 then 0
    else if tags[0] == kind then 0
    else 1 + FirstIndex(tags[1..], kind)
  }

  /** vigra's `array.channels`: the extent of the channel axis, or 1 without one. */
  function ChannelsOf(a: NdArray): nat
    requires Valid(a) && a.tags.Some?
  {
    var i := FirstIndex(a.tags.value, Channels);
    if i < |a.shape| then a.shape[i] else 1
  }

  /** The three assertions `__get_fn` makes about a tagged array. */
  predicate TaggedAcceptable(a: NdArray)
    requires Valid(a) && a.tags.Some?
  {
    var t := FirstIndex(a.tags.value, Time);
    && ChannelsOf(a) == 1
    && (t == |a.shape| || a.shape[t] == 1)
    && |Squeeze(a).shape| in {2, 3}
  }

  /** `__get_fn`: the assertions on a tagged array, then the squeezed rank picks the function. */
  function GetFn(a: NdArray): (r: Result<Rank, PyError>)
    requires Valid(a)
    ensures r.Err? ==> r.error in {AssertionError, NotImplementedError}
    ensures r.Err? && r.error == AssertionError ==> a.tags.Some?
    ensures r.Ok? <==> (a.tags.Some? ==> TaggedAcceptable(a)) && |Squeeze(a).shape| in {2, 3}
    ensures r.Ok? ==> (r.value == Fn2d <==> |Squeeze(a).shape| == 2)
  {
    if a.tags.Some? && !TaggedAcceptable(a) then Err(AssertionError)
    else
      var n := |Squeeze(a).shape|;
      if n == 2 then Ok(Fn2d)
      else if n == 3 then Ok(Fn3d)
      else Err(NotImplementedError)
  }

  /**
    The preamble of the decorator: a tagged array is made C-contiguous and squeezed; an untagged
    array with an axis of extent 1 fails the assertion and is otherwise passed on unchanged.
  */
  function Prepared(a: NdArray): (r: Result<NdArray, PyError>)
    requires Valid(a)
    ensures r.Err? <==> a.tags.None? && exists i :: 0 <= i < |a.shape| && a.shape[i] == 1
    ensures r.Err? ==> r.error == AssertionError
    ensures r.Ok? ==> Valid(r.value) && r.value.tags.Some? == a.tags.Some?
    ensures r.Ok? ==> forall i :: 0 <= i < |r.value.shape| ==> r.value.shape[i] != 1
    ensures r.Ok? && a.tags.None? ==> r.value == a
  {
    if a.tags.Some? then Ok(Squeeze(TaggedContiguous(a)))
    else if exists i :: 0 <= i < |a.shape| && a.shape[i] == 1 then Err(AssertionError)
    else Ok(a)
  }

  /** The derivative order argument: one number, or a list with one entry per axis. */
  datatype OrderArg = Scalar(n: nat) | List(ns: seq<nat>)

  /** The distinct entries of a list, as `np.unique` collects them. */
  function Unique(ns: seq<nat>): set<nat>
  {
    set x | x in ns
  }

  /** `np.unique` finds one value exactly when the list is non-empty and all entries equal the first. */
  lemma UniqueSingleton(ns: seq<nat>)
    ensures |Unique(ns)| == 1 <==> |ns| > 0 && forall i :: 0 <= i < |ns| ==> ns[i] == ns[0]
  {
    var u := Unique(ns);
    if |ns| > 0 && forall i :: 0 <= i < |ns| ==> ns[i] == ns[0] {
      assert u == {ns[0]};
    }
    if |u| == 1 {
      assert u != {};
      var y :| y in u;
      assert u - {y} == {} by {
        assert |u - {y}| == 0;
      }
      assert ns[0] in u;
      forall i | 0 <= i < |ns|
        ensures ns[i] == ns[0]
      {
        assert ns[i] in u;
      }
    }
  }

  /** The order check of `gaussianDerivative`, for an array of the given rank. */
  function DerivativeOrder(order: OrderArg, ndim: nat): (r: Result<nat, PyError>)
    ensures order.Scalar? ==> r == Ok(order.n)
    ensures order.List? ==>
              (r.Ok? <==> |order.ns| == ndim > 0 && forall i :: 0 <= i < |order.ns| ==> order.ns[i] == order.ns[0])
    ensures order.List? && r.Ok? ==> r.value == order.ns[0]
    ensures r.Err? ==> r.error == AssertionError
  {
    match order
    case Scalar(n) => Ok(n)
    case List(ns) =>
      UniqueSingleton(ns);
      if |ns| == ndim && |Unique(ns)| == 1 then Ok(ns[0]) else Err(AssertionError)
  }

  /** The body of an entry point: the selected core function applied to the array it receives. */
  function Apply(s: NdArray, f: Filter, order: nat): (r: Result<NdArray, PyError>)
    requires Valid(s)
    ensures GetFn(s).Err? ==> r == Err(GetFn(s).error)
    ensures r.Err? ==> r.error in {AssertionError, NotImplementedError, RuntimeError}
    ensures r.Ok? ==> GetFn(s).Ok? && Valid(r.value)
    ensures r.Ok? && !IsEigen(f) ==> r.value.shape == s.shape
  {
    match GetFn(s)
    case Err(e) => Err(e)
    case Ok(rank) => Wrapped(CoreCall(f, rank, order, s))
  }

  /**
    `gaussianSmoothing` (order 0), `gaussianGradientMagnitude`, `laplacianOfGaussian` and the two
    eigenvalue entry points (component axis rolled last), up to the vigra re-tagging of the result.
  */
  function Filter(a: NdArray, f: Filter): (r: Result<NdArray, PyError>)
    requires Valid(a)
    ensures Prepared(a).Err? ==> r == Err(AssertionError)
    ensures Prepared(a).Ok? ==> r == Apply(Prepared(a).value, f, 0)
    ensures r.Ok? && !IsEigen(f) ==> r.value.shape == Prepared(a).value.shape
  {
    match Prepared(a)
    case Err(e) => Err(e)
    case Ok(s) => Apply(s, f, 0)
  }

  /** `gaussianDerivative`: the order is checked against the rank of the array the function receives. */
  function GaussianDerivative(a: NdArray, order: OrderArg): (r: Result<NdArray, PyError>)
    requires Valid(a)
    ensures Prepared(a).Err? ==> r == Err(AssertionError)
    ensures Prepared(a).Ok? && DerivativeOrder(order, |Prepared(a).value.shape|).Err? ==> r == Err(AssertionError)
    ensures r.Ok? ==> r.value.shape == Prepared(a).value.shape
  {
    match Prepared(a)
    case Err(e) => Err(e)
    case Ok(s) =>
      match DerivativeOrder(order, |s.shape|)
      case Err(e) => Err(e)
      case Ok(o) => Apply(s, Smoothing, o)
  }

  // ---------------------------------------------------------------------------------------
  // Properties

  /** An untagged array reaches the 2-D function with two axes, the 3-D one with three, nothing else. */
  lemma UntaggedRank(a: NdArray)
    requires Valid(a) && a.tags.None? && Prepared(a).Ok?
    ensures GetFn(a).Ok? <==> |a.shape| in {2, 3}
    ensures GetFn(a) == Ok(Fn2d) <==> |a.shape| == 2
    ensures GetFn(a).Err? ==> GetFn(a).error == NotImplementedError
  {
    SqueezeNoUnitAxes(a);
  }

  /** Without axes of extent 1, a tagged array has one channel exactly when it has no channel axis. */
  lemma SingleChannel(s: NdArray)
    requires Valid(s) && s.tags.Some? && forall i :: 0 <= i < |s.shape| ==> s.shape[i] != 1
    ensures ChannelsOf(s) == 1 <==> Channels !in s.tags.value
  {
    var t := s.tags.value;
    if Channels in t {
      var k :| 0 <= k < |t| && t[k] == Channels;
      assert FirstIndex(t, Channels) <= k;
    }
  }

  /** Without axes of extent 1, a tagged array has one time step exactly when it has no time axis. */
  lemma SingleTimeStep(s: NdArray)
    requires Valid(s) && s.tags.Some? && forall i :: 0 <= i < |s.shape| ==> s.shape[i] != 1
    ensures var m := FirstIndex(s.tags.value, Time);
            (m == |s.shape| || s.shape[m] == 1) <==> Time !in s.tags.value
  {
    var t := s.tags.value;
    if Time in t {
      var k :| 0 <= k < |t| && t[k] == Time;
      assert FirstIndex(t, Time) <= k;
    }
  }

  /**
    A tagged array passes `__get_fn` only when, after squeezing, it has 2 or 3 axes and none of
    them is a channel or a time axis.
  */
  lemma TaggedPasses(a: NdArray)
    requires Valid(a) && a.tags.Some? && Prepared(a).Ok?
    ensures var s := Prepared(a).value;
            GetFn(s).Ok? <==> |s.shape| in {2, 3} && Channels !in s.tags.value && Time !in s.tags.value
  {
    var s := Prepared(a).value;
    SqueezeNoUnitAxes(s);
    SingleChannel(s);
    SingleTimeStep(s);
  }

  /** The function `__get_fn` selects always accepts the array it is given: the core raises nothing. */
  lemma SelectedConverts(s: NdArray, f: Filter, order: nat)
    requires Valid(s) && forall i :: 0 <= i < |s.shape| ==> s.shape[i] != 1
    requires GetFn(s).Ok?
    ensures CoreResult(CoreCall(f, GetFn(s).value, order, s)).Ok?
  {
    SqueezeNoUnitAxes(s);
    PythonCore.ContiguousConversion2d(PythonCore.Buffer(0, s.shape, PythonCore.CStrides(s.shape)));
    PythonCore.ContiguousConversion3d(PythonCore.Buffer(0, s.shape, PythonCore.CStrides(s.shape)));
  }

  /**
    Every entry point ends in AssertionError or NotImplementedError or returns; a filter that
    keeps the shape returns the shape of the array it received, an eigenvalue filter that shape
    followed by its 2 or 3 components.
  */
  lemma FilterOutcome(a: NdArray, f: Filter)
    requires Valid(a)
    ensures Filter(a, f).Err? ==> Filter(a, f).error in {AssertionError, NotImplementedError}
    ensures Filter(a, f).Ok? ==>
              var s := Prepared(a).value;
              && GetFn(s).Ok?
              && Filter(a, f).value.shape ==
                 (if IsEigen(f) then s.shape + [Components(GetFn(s).value)] else s.shape)
  {
    if Prepared(a).Ok? {
      var s := Prepared(a).value;
      if GetFn(s).Ok? {
        var c := CoreCall(f, GetFn(s).value, 0, s);
        SelectedConverts(s, f, 0);
        if IsEigen(f) {
          EigenComponentsLast(c);
        }
      }
    }
  }

  /** A list with the same order for every axis acts as that order; `gaussianSmoothing` is order 0. */
  lemma UniformOrderList(a: NdArray, ns: seq<nat>, n: nat)
    requires Valid(a) && Prepared(a).Ok?
    requires |ns| == |Prepared(a).value.shape| > 0 && forall i :: 0 <= i < |ns| ==> ns[i] == n
    ensures GaussianDerivative(a, List(ns)) == GaussianDerivative(a, Scalar(n))
    ensures GaussianDerivative(a, Scalar(0)) == Filter(a, Smoothing)
  {
    assert ns[0] == n;
  }

  /** A list whose length is not the rank, or whose entries differ, fails the assertion. */
  lemma MixedOrderListRejected(a: NdArray, ns: seq<nat>, i: nat, j: nat)
    requires Valid(a) && Prepared(a).Ok?
    requires i < |ns| && j < |ns| && ns[i] != ns[j]
    ensures GaussianDerivative(a, List(ns)) == Err(AssertionError)
  {
    assert ns[i] != ns[0] || ns[j] != ns[0];
  }
}
