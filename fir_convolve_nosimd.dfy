/**
  Implementation selection of `src/fir_convolve_nosimd.c`: four tables of
  `FF_UNROLL = 20` generated line convolutions, one per (border treatment, symmetry), and
  `fastfilters_fir_convolve_fir_inner`, which picks entry `len - 1` of one of them.
*/
module FirConvolveNosimd {
  import opened Strided
  import opened BorderTreatment
  import opened FirConvolveNosimdImpl
  import opened FirKernel

  /** `FF_UNROLL`: the number of kernel lengths with a generated implementation. */
  const Unroll: nat := 20

  /** One of the four `impl_fn_*` tables. */
  datatype Table = Table(side: Side, symmetric: bool)

  /** The dispatcher's decision: no call, or a call of entry `index` of `table`. */
  datatype Selection = Rejected | Selected(table: Table, index: nat)

  /** The side treatment a border names, for the two borders with tables. */
  function SideOf(border: Border): Side
    requires border == Mirror || border == Optimistic
  {
    if border == Mirror then MirrorSide else OptimisticSide
  }

  /**
    Entry `index` of a table: the line convolution generated with `KERNEL_LEN = index + 1`
    and the table's treatment on both sides of the line.
  */
  function Entry(t: Table, index: nat): (v: Variant)
    requires index < Unroll
    ensures v.left == v.right == t.side && v.symmetric == t.symmetric
    ensures 1 <= v.len <= Unroll
  {
    Variant(t.side, t.side, t.symmetric, index + 1)
  }

  /** The length test, then the switch on the border, then the symmetry flag. */
  function Select(len: nat, symmetric: bool, border: Border): (s: Selection)
    ensures s.Selected? <==> 1 <= len <= Unroll && (border == Mirror || border == Optimistic)
    ensures s.Selected? ==> s.index < Unroll
  {
    if len == 0 then Rejected
    else if len > Unroll then Rejected
    else match border {
      case Mirror => Selected(Table(MirrorSide, symmetric), len - 1)
      case Optimistic => Selected(Table(OptimisticSide, symmetric), len - 1)
      case OtherBorder(_) => Rejected
    }
  }

  /**
    The table depends only on the border and the symmetry flag, and the entry called is the
    implementation generated for exactly the kernel's length.
  */
  lemma SelectedEntryFitsKernel(len: nat, symmetric: bool, border: Border)
    requires Select(len, symmetric, border).Selected?
    ensures var s := Select(len, symmetric, border);
            && s.table == Table(SideOf(border), symmetric)
            && Entry(s.table, s.index) == Variant(SideOf(border), SideOf(border), symmetric, len)
  {
  }

  /** The variant the dispatcher runs for a kernel it accepts. */
  function Chosen(len: nat, symmetric: bool, border: Border): (v: Variant)
    requires Select(len, symmetric, border).Selected?
    ensures v == Variant(SideOf(border), SideOf(border), symmetric, len)
  {
    SelectedEntryFitsKernel(len, symmetric, border);
    var s := Select(len, symmetric, border);
    Entry(s.table, s.index)
  }

  /**
    What an accepted call demands of the buffers: the chosen line convolution's own demands,
    with input and output in different buffers.
  */
  predicate CallFits(inp: array<real>, out: array<real>, sh: Shape, len: nat, symmetric: bool, border: Border)
    requires Select(len, symmetric, border).Selected?
  {
    && inp != out
    && LongEnough(Chosen(len, symmetric, border), sh.nPixels)
    && Fits(inp.Length, out.Length, sh, Chosen(len, symmetric, border))
  }

  /**
    `fastfilters_fir_convolve_fir_inner`: returns false without a call for an empty kernel,
    a kernel longer than `FF_UNROLL` or a border other than MIRROR and OPTIMISTIC; otherwise
    its result is the selected line convolution's, which writes the convolved lines.
  */
  method ConvolveFirInner(inp: array<real>, out: array<real>, sh: Shape, kernel: Kernel, border: Border)
    returns (ok: bool)
    requires kernel.coefs.Length == kernel.len + 1
    requires Select(kernel.len, kernel.isSymmetric, border).Selected? ==>
               CallFits(inp, out, sh, kernel.len, kernel.isSymmetric, border)
    modifies out
    ensures ok <==> Select(kernel.len, kernel.isSymmetric, border).Selected?
    ensures ok ==> out[..] == WriteLines(old(out[..]), OutLayout(sh), sh.nPixels,
                                         InnerOutputs(old(inp[..]), sh, old(kernel.coefs[..]),
                                                      Chosen(kernel.len, kernel.isSymmetric, border)),
                                         sh.nOuter)
    ensures !ok ==> out[..] == old(out[..])
  {
    var s := Select(kernel.len, kernel.isSymmetric, border);
    if s == Rejected {
      return false;
    }
    var v := Entry(s.table, s.index);
    assert v == Chosen(kernel.len, kernel.isSymmetric, border);
    assert CallFits(inp, out, sh, kernel.len, kernel.isSymmetric, border);
    ghost var expected := InnerOutputs(inp[..], sh, kernel.coefs[..], v);
    ok := ConvolveInner(inp, out, sh, kernel.coefs[..], v);
    assert out[..] == WriteLines(old(out[..]), OutLayout(sh), sh.nPixels, expected, sh.nOuter);
  }
}
