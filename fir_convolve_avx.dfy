/**
  Implementation selection of `src/fir_convolve_avx.c`. For each direction (inner or outer),
  left border, right border and symmetry there is a table of `FF_UNROLL = 20` generated
  implementations, and a selection record naming the table and the three values it serves;
  `find_fn` searches the records of one direction for the caller's values and indexes the
  table by kernel length.
*/
module FirConvolveAvx {
  import opened Wrappers
  import opened BorderTreatment

  /** `FF_UNROLL`. */
  const Unroll: nat := 20

  /** `N_BORDER_TYPES`: the border codes 0, 1 and 2 that the tables are generated for. */
  const BorderTypes: nat := 3

  /** The number of selection records per direction: left code, right code, symmetry. */
  const Records: nat := 18

  /** The kernel-length suffix of a generated implementation's name (`KLEN_SUFFIX`). */
  datatype KernelLength = Fixed(n: nat) | Runtime

  /** A generated table, named by direction, the two border codes and symmetry. */
  datatype TableName = TableName(outer: bool, leftCode: nat, rightCode: nat, symmetric: bool)

  /** A generated implementation: its table and its length suffix. */
  datatype Impl = Impl(table: TableName, length: KernelLength)

  /** `struct impl_fn_jmptbl_selection`. */
  datatype Selection = Selection(table: TableName, left: Border, right: Border, symmetric: bool)

  /** The suffix of entry n: `n + 1`, except that the last entry is the runtime-length one. */
  function Suffix(n: nat): (k: KernelLength)
    requires n < Unroll
    ensures k == Runtime <==> n == Unroll - 1
    ensures k.Fixed? ==> k.n == n + 1
  {
    if n + 1 == Unroll then Runtime else Fixed(n + 1)
  }

  /** Entry n of a generated table. */
  function Entry(t: TableName, n: nat): Impl
    requires n < Unroll
  {
    Impl(t, Suffix(n))
  }

  /** An implementation can run a kernel of half-length len. */
  predicate Serves(impl: Impl, len: nat)
  {
    impl.length == Runtime || impl.length == Fixed(len)
  }

  /**
    Record i of a direction's list: `BOOST_PP_LIST_FOR_EACH_PRODUCT` enumerates left code,
    right code and symmetry with the last varying fastest. `enums` holds the enumerators
    `border_enum_0`, `border_enum_1` and `border_enum_2` that the codes stand for.
  */
  function Record(outer: bool, enums: seq<Border>, i: nat): (s: Selection)
    requires |enums| == BorderTypes && i < Records
    ensures s.table.outer == outer && s.table.leftCode < BorderTypes && s.table.rightCode < BorderTypes
    ensures s.left == enums[s.table.leftCode] && s.right == enums[s.table.rightCode]
    ensures s.symmetric == s.table.symmetric
  {
    var t := TableName(outer, i / 6, (i / 2) % 3, i % 2 == 1);
    Selection(t, enums[t.leftCode], enums[t.rightCode], t.symmetric)
  }

  /** `jmptbls_inner` (outer = false) and `jmptbls_outer` (outer = true). */
  function SelectionList(outer: bool, enums: seq<Border>): (r: seq<Selection>)
    requires |enums| == BorderTypes
    ensures |r| == Records
  {
    seq(Records, i requires 0 <= i < Records => Record(outer, enums, i))
  }

  /** Record s serves the caller's borders and symmetry flag. */
  predicate Matches(s: Selection, left: Border, right: Border, symmetric: bool)
  {
    s.left == left && s.right == right && s.symmetric == symmetric
  }

  /** The first record at or after `from` that matches, if any. */
  function FirstMatch(tbls: seq<Selection>, left: Border, right: Border, symmetric: bool, from: nat)
    : (r: Option<nat>)
    decreases |tbls| - from
    ensures r.Some? ==> from <= r.value < |tbls| && Matches(tbls[r.value], left, right, symmetric)
    ensures r.Some? ==> forall j :: from <= j < r.value ==> !Matches(tbls[j], left, right, symmetric)
    ensures r.None? ==> forall j :: from <= j < |tbls| ==> !Matches(tbls[j], left, right, symmetric)
  {
    if from >= |tbls| then None
    else if Matches(tbls[from], left, right, symmetric) then Some(from)
    else FirstMatch(tbls, left, right, symmetric, from + 1)
  }

  /** The search loop of `find_fn`: stops at the first matching record. */
  method Search(tbls: seq<Selection>, left: Border, right: Border, symmetric: bool)
    returns (found: Option<nat>)
    ensures found == FirstMatch(tbls, left, right, symmetric, 0)
  {
    found := None;
    var i := 0;
    while i < |tbls|
      invariant 0 <= i <= |tbls|
      invariant FirstMatch(tbls, left, right, symmetric, i) == FirstMatch(tbls, left, right, symmetric, 0)
    {
      if left != tbls[i].left {
        i := i + 1;
        continue;
      }
      if right != tbls[i].right {
        i := i + 1;
        continue;
      }
      if symmetric != tbls[i].symmetric {
        i := i + 1;
        continue;
      }
      found := Some(i);
      break;
    }
  }

  /** The three codes stand for three different enumerators. */
  predicate Distinct(enums: seq<Border>)
  {
    |enums| == BorderTypes && enums[0] != enums[1] && enums[0] != enums[2] && enums[1] != enums[2]
  }

  /** Record `6 x + 2 y + b` is the one for codes x and y and symmetry b. */
  lemma RecordIndex(x: nat, y: nat, b: nat)
    requires x < BorderTypes && y < BorderTypes && b < 2
    ensures (6 * x + 2 * y + b) / 6 == x
    ensures ((6 * x + 2 * y + b) / 2) % 3 == y
    ensures (6 * x + 2 * y + b) % 2 == b
  {
    var i := 6 * x + 2 * y + b;
    assert i == 6 * x + (2 * y + b) && 0 <= 2 * y + b < 6;
    assert i == 2 * (3 * x + y) + b;
    assert i / 2 == 3 * x + y;
  }

  /** The record at `6 x + 2 y + b` serves codes x and y. */
  lemma RecordFor(outer: bool, enums: seq<Border>, x: nat, y: nat, symmetric: bool)
    requires |enums| == BorderTypes && x < BorderTypes && y < BorderTypes
    ensures var i := 6 * x + 2 * y + (if symmetric then 1 else 0);
            i < Records && Matches(SelectionList(outer, enums)[i], enums[x], enums[y], symmetric)
  {
    var b := if symmetric then 1 else 0;
    RecordIndex(x, y, b);
    assert Record(outer, enums, 6 * x + 2 * y + b).table == TableName(outer, x, y, symmetric);
  }

  /**
    A direction's records serve a (left, right, symmetry) triple exactly when both borders are
    among the three enumerators, and the record found names the table of that direction
    generated for the two borders' codes and the flag.
  */
  lemma RecordsCover(outer: bool, enums: seq<Border>, left: Border, right: Border, symmetric: bool)
    requires Distinct(enums)
    ensures var r := FirstMatch(SelectionList(outer, enums), left, right, symmetric, 0);
            && (r.Some? <==> left in enums && right in enums)
            && (r.Some? ==>
                  var t := SelectionList(outer, enums)[r.value].table;
                  t.leftCode < BorderTypes && t.rightCode < BorderTypes && t.outer == outer
                  && enums[t.leftCode] == left && enums[t.rightCode] == right && t.symmetric == symmetric)
  {
    var tbls := SelectionList(outer, enums);
    if left in enums && right in enums {
      var x :| 0 <= x < BorderTypes && enums[x] == left;
      var y :| 0 <= y < BorderTypes && enums[y] == right;
      RecordFor(outer, enums, x, y, symmetric);
    }
  }

  /**
    The table index `find_fn` computes: `FF_UNROLL` for a kernel longer than `FF_UNROLL`,
    otherwise `len - 1`.
  */
  function IndexAsWritten(len: nat): nat
    requires len >= 1
  {
    if len > Unroll then Unroll else len - 1
  }

  /** Long kernels index one past the end of the 20-entry table. */
  lemma LongKernelIndexOutOfBounds(len: nat)
    requires len > Unroll
    ensures IndexAsWritten(len) == Unroll
    ensures !(IndexAsWritten(len) < Unroll)
  {
  }

  /** The index meant: the last entry, the runtime-length implementation, for long kernels. */
  function Index(len: nat): (n: nat)
    requires len >= 1
    ensures n < Unroll
    ensures n == IndexAsWritten(len) <==> len <= Unroll
  {
    if len > Unroll then Unroll - 1 else len - 1
  }

  /**
    The selected entry runs the kernel: its suffix is the kernel's length below `FF_UNROLL`
    and the runtime-length variant from `FF_UNROLL` on.
  */
  lemma SelectedEntryServes(t: TableName, len: nat)
    requires len >= 1
    ensures Serves(Entry(t, Index(len)), len)
    ensures Entry(t, Index(len)).length == if len < Unroll then Fixed(len) else Runtime
  {
  }

  /**
    `find_fn`: NULL for an empty kernel or when no record matches; otherwise the implementation
    at the kernel's index in the first matching record's table.
  */
  method FindFn(len: nat, symmetric: bool, left: Border, right: Border, tbls: seq<Selection>)
    returns (fn: Option<Impl>)
    ensures len == 0 ==> fn == None
    ensures len >= 1 ==>
              fn == match FirstMatch(tbls, left, right, symmetric, 0) {
                      case None => None
                      case Some(i) => Some(Entry(tbls[i].table, Index(len)))
                    }
  {
    if len == 0 {
      return None;
    }
    var found := Search(tbls, left, right, symmetric);
    if found == None {
      return None;
    }
    fn := Some(Entry(tbls[found.value].table, Index(len)));
  }

  /**
    `fastfilters_fir_convolve_fir_inner_avx` and `_outer_avx`: false when `find_fn` finds
    nothing, otherwise the found implementation's result, `implResult`. The inner entry point
    searches `jmptbls_inner`, the outer one `jmptbls_outer`.
  */
  method ConvolveFir(outer: bool, enums: seq<Border>, len: nat, symmetric: bool, left: Border, right: Border,
                     implResult: bool)
    returns (ok: bool, fn: Option<Impl>)
    requires Distinct(enums)
    ensures fn.Some? <==> len >= 1 && left in enums && right in enums
    ensures fn.Some? ==>
              && fn.value.table.outer == outer && fn.value.table.symmetric == symmetric
              && fn.value.table.leftCode < BorderTypes && fn.value.table.rightCode < BorderTypes
              && enums[fn.value.table.leftCode] == left && enums[fn.value.table.rightCode] == right
              && Serves(fn.value, len)
    ensures ok == (fn.Some? && implResult)
  {
    var tbls := SelectionList(outer, enums);
    RecordsCover(outer, enums, left, right, symmetric);
    fn := FindFn(len, symmetric, left, right, tbls);
    if fn == None {
      return false, fn;
    }
    SelectedEntryServes(fn.value.table, len);
    ok := implResult;
  }
}
