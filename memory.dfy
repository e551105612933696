/**
  The allocator indirection and the aligned allocator of `src/library/memory.c`.

  Memory is modelled as a set of live blocks (address to size) plus the 8-byte words that the
  aligned allocator writes. What the underlying allocator returns is not under the library's
  control: a heap is created with the script of addresses that its successive allocations
  return, where 0 (NULL) stands for an allocation failure.
*/
module Memory {
  import opened Wrappers

  /** NULL. */
  const Null: nat := 0

  /** `ALIGN_MAGIC`; its low byte is zero, which leaves room for the offset byte. */
  const AlignMagic: nat := 0xd2ac461d9c25ee00

  /** 2^64, the modulus of `size_t` arithmetic. */
  const SizeModulus: nat := 0x1_0000_0000_0000_0000

  /** Which allocation function the library calls through `g_alloc_fn`. */
  datatype AllocFn = UnsetAlloc | Malloc | UserAlloc(id: nat)

  /** Which release function the library calls through `g_free_fn`. */
  datatype FreeFn = UnsetFree | LibcFree | UserFree(id: nat)

  /** What `fastfilters_memory_align_free` ends up doing with a pointer. */
  datatype FreeOutcome =
    | Freed(raw: nat)          // the block at `raw` was released
    | MagicMismatch            // the header assertion fails: the process aborts
    | InvalidFree(addr: nat)   // the computed address is not a live block: undefined behaviour

  /** The address the `i`-th allocation of a script returns; a script that has run out fails. */
  function Outcome(script: seq<nat>, i: nat): nat
  {
    if i < |script| then script[i] else Null
  }

  /** The script left after `n` allocations. */
  function Drop(script: seq<nat>, n: nat): seq<nat>
  {
    if n <= |script| then script[n..] else []
  }

  /** The first `n` allocations of a script all succeed. */
  predicate AllocsSucceed(script: seq<nat>, n: nat)
  {
    forall i | 0 <= i < n :: Outcome(script, i) != Null
  }

  /** After `n` allocations the script goes on with the `n`-th outcome. */
  lemma OutcomeAfterDrop(script: seq<nat>, n: nat, i: nat)
    ensures Outcome(Drop(script, n), i) == Outcome(script, n + i)
  {
  }

  /**
    `n + m` allocations succeed exactly when the first `n` do and then the next `m` do, and they
    leave the same script either way.
  */
  lemma SucceedSplit(script: seq<nat>, n: nat, m: nat)
    ensures AllocsSucceed(script, n + m) <==> AllocsSucceed(script, n) && AllocsSucceed(Drop(script, n), m)
    ensures Drop(Drop(script, n), m) == Drop(script, n + m)
  {
    forall i | 0 <= i < m
      ensures Outcome(Drop(script, n), i) == Outcome(script, n + i)
    {
      OutcomeAfterDrop(script, n, i);
    }
    if AllocsSucceed(script, n) && AllocsSucceed(Drop(script, n), m) {
      forall i | 0 <= i < n + m
        ensures Outcome(script, i) != Null
      {
        if i >= n {
          assert Outcome(Drop(script, n), i - n) != Null;
        }
      }
    }
  }

  /** Releasing the two blocks just added to a map of live blocks gives the map back. */
  lemma PairReleased(m: map<nat, nat>, a: nat, x: nat, c: nat, y: nat)
    requires a !in m && c !in m
    ensures m[a := x][c := y] - {c, a} == m
  {
  }

  /** Releasing blocks other than the two just added can be done before adding them. */
  lemma ReleaseCommutes(m: map<nat, nat>, r: set<nat>, a: nat, x: nat, c: nat, y: nat)
    requires a !in r && c !in r
    ensures m[a := x][c := y] - r == (m - r)[a := x][c := y]
  {
  }

  /** `x & ~m` on naturals, bit by bit from the least significant one. */
  function AndNot(x: nat, m: nat): nat
    decreases x
  {
    if x == 0 then 0
    else 2 * AndNot(x / 2, m / 2) + (if x % 2 == 1 && m % 2 == 0 then 1 else 0)
  }

  /** 2^k. */
  function Pow2(k: nat): (r: nat)
    ensures r >= 1
  {
    if k == 0 then 1 else 2 * Pow2(k - 1)
  }

  /** Clearing the bits of `m` takes away at most `m` and never more than `x`. */
  lemma {:induction false} AndNotBounds(x: nat, m: nat)
    ensures AndNot(x, m) <= x
    ensures x - AndNot(x, m) <= m
    decreases x
  {
    if x != 0 {
      AndNotBounds(x / 2, m / 2);
    }
  }

  /** `x >> k`: the bits of `x` above the lowest `k`. */
  function HighBits(x: nat, k: nat): nat
  {
    if k == 0 then x else HighBits(x / 2, k - 1)
  }

  lemma {:induction false} AndNotZeroMask(x: nat)
    ensures AndNot(x, 0) == x
    decreases x
  {
    if x != 0 {
      AndNotZeroMask(x / 2);
    }
  }

  /** For the mask 2^k - 1, clearing its bits leaves `(x >> k) << k`. */
  lemma {:induction false} AndNotLowBits(x: nat, k: nat)
    ensures AndNot(x, Pow2(k) - 1) == Pow2(k) * HighBits(x, k)
    decreases k
  {
    if k == 0 {
      AndNotZeroMask(x);
    } else if x == 0 {
      HighBitsOfZero(k);
    } else {
      var m := Pow2(k) - 1;
      MaskHalves(k);
      assert AndNot(x, m) == 2 * AndNot(x / 2, Pow2(k - 1) - 1);
      AndNotLowBits(x / 2, k - 1);
      Doubled(AndNot(x / 2, Pow2(k - 1) - 1), Pow2(k - 1), HighBits(x / 2, k - 1));
    }
  }

  /** An odd mask 2^k - 1 halves into the next smaller one. */
  lemma MaskHalves(k: nat)
    requires k >= 1
    ensures (Pow2(k) - 1) / 2 == Pow2(k - 1) - 1 && (Pow2(k) - 1) % 2 == 1
  {
  }

  lemma Doubled(a: int, p: int, h: int)
    requires a == p * h
    ensures 2 * a == (2 * p) * h
  {
  }

  lemma {:induction false} HighBitsOfZero(k: nat)
    ensures HighBits(0, k) == 0
  {
    if k != 0 {
      HighBitsOfZero(k - 1);
    }
  }

  /**
    The aligned address `(raw + 8 + alignment - 1) & ~(alignment - 1)`. Whatever the alignment,
    the 8-byte header below it lies inside the block and the offset is at most alignment + 7.
  */
  function AlignedAddress(raw: nat, alignment: nat): (r: nat)
    requires alignment >= 1
    ensures raw + 8 <= r <= raw + alignment + 7
  {
    var x := raw + 8 + alignment - 1;
    AndNotBounds(x, alignment - 1);
    AndNot(x, alignment - 1)
  }

  /**
    For a power-of-two alignment 2^k, the aligned address is the multiple of 2^k that
    `(raw + 7 + 2^k) >> k` counts.
  */
  lemma AlignedAddressIsMultiple(raw: nat, k: nat)
    ensures AlignedAddress(raw, Pow2(k)) == Pow2(k) * HighBits(raw + 7 + Pow2(k), k)
  {
    AndNotLowBits(raw + 7 + Pow2(k), k);
  }

  /** The returned block of `size` bytes ends inside the `size + alignment + 8` bytes requested. */
  lemma AlignedBlockInsideAllocation(raw: nat, alignment: nat, size: nat)
    requires alignment >= 1
    ensures AlignedAddress(raw, alignment) + size <= raw + size + alignment + 8
    ensures AlignedAddress(raw, alignment) - 8 >= raw
  {
  }

  /**
    The header word `ALIGN_MAGIC | (diff & 0xff)`; as the magic's low byte is zero, the
    bitwise or is a sum.
  */
  function Header(diff: nat): (h: nat)
    ensures HeaderMagic(h) == AlignMagic
    ensures HeaderOffset(h) == diff % 256
  {
    AlignMagic + diff % 256
  }

  /** `h & ~0xff` of a 64-bit word `h`. */
  function HeaderMagic(h: nat): nat
  {
    h - h % 256
  }

  /** `h & 0xff`. */
  function HeaderOffset(h: nat): (r: nat)
    ensures r < 256
  {
    h % 256
  }

  /**
    align_free(align(a, s)) computes the raw address back exactly when the offset fits in the
    header's low byte, which every alignment with alignment + 7 <= 0xff guarantees.
  */
  lemma AlignFreeRecoversRaw(raw: nat, alignment: nat)
    requires 1 <= alignment && alignment + 7 <= 0xff
    ensures var p := AlignedAddress(raw, alignment);
            p - HeaderOffset(Header(p - raw)) == raw
  {
  }

  /**
    The assertion `alignment < 0xff` admits alignments up to 254, for which the offset can
    exceed one byte: with alignment 250 and a block at 1024 the aligned address is 1280, the
    stored offset byte is 0, and align_free would release 1280 instead of 1024.
  */
  lemma AlignFreeTruncatesOffset()
    ensures 250 < 0xff
    ensures AlignedAddress(1024, 250) == 1280
    ensures 1280 - HeaderOffset(Header(1280 - 1024)) == 1280
  {
    AndNot1281();
    assert HeaderOffset(Header(256)) == 0;
  }

  lemma AndNot1281()
    ensures AndNot(1281, 249) == 1280
  {
    AndNotZeroMask(5);
    assert AndNot(10, 1) == 2 * AndNot(5, 0);
    assert AndNot(20, 3) == 2 * AndNot(10, 1);
    assert AndNot(40, 7) == 2 * AndNot(20, 3);
    assert AndNot(80, 15) == 2 * AndNot(40, 7);
    assert AndNot(160, 31) == 2 * AndNot(80, 15);
    assert AndNot(320, 62) == 2 * AndNot(160, 31);
    assert AndNot(640, 124) == 2 * AndNot(320, 62);
    assert AndNot(1281, 249) == 2 * AndNot(640, 124);
  }

  /** The allocator state that `fastfilters_memory_init`, `_alloc`, `_free` and `_align` act on. */
  class Heap {
    var allocFn: AllocFn
    var freeFn: FreeFn
    /** Live blocks: start address to size in bytes. */
    var live: map<nat, nat>
    /** The addresses the underlying allocator returns next, 0 meaning failure. */
    var outcomes: seq<nat>
    /** The 8-byte words written by the aligned allocator, by address. */
    var words: map<nat, nat>

    /** The allocator never hands out a block twice or one that is still live. */
    ghost predicate Valid()
      reads this
    {
      && (forall i | 0 <= i < |outcomes| :: outcomes[i] != Null ==> outcomes[i] !in live)
      && (forall i, j | 0 <= i < j < |outcomes| :: outcomes[i] != Null ==> outcomes[i] != outcomes[j])
    }

    /** Both function pointers have been set by `fastfilters_memory_init`. */
    predicate Ready()
      reads this
    {
      allocFn != UnsetAlloc && freeFn != UnsetFree
    }

    constructor (script: seq<nat>)
      requires forall i, j | 0 <= i < j < |script| :: script[i] != Null ==> script[i] != script[j]
      ensures Valid() && !Ready()
      ensures allocFn == UnsetAlloc && freeFn == UnsetFree
      ensures live == map[] && outcomes == script && words == map[]
    {
      allocFn, freeFn := UnsetAlloc, UnsetFree;
      live, outcomes, words := map[], script, map[];
    }

    /** `fastfilters_memory_init`: a NULL function falls back to malloc or free. */
    method Init(alloc: Option<nat>, free: Option<nat>)
      modifies this`allocFn, this`freeFn
      ensures Ready()
      ensures allocFn == (if alloc.Some? then UserAlloc(alloc.value) else Malloc)
      ensures freeFn == (if free.Some? then UserFree(free.value) else LibcFree)
    {
      if alloc.Some? {
        allocFn := UserAlloc(alloc.value);
      } else {
        allocFn := Malloc;
      }
      if free.Some? {
        freeFn := UserFree(free.value);
      } else {
        freeFn := LibcFree;
      }
    }

    /** The address the next allocation returns. */
    function Next(): nat
      reads this
    {
      Outcome(outcomes, 0)
    }

    /** `fastfilters_memory_alloc`: NULL on failure, otherwise a fresh block of `size` bytes. */
    method Alloc(size: nat) returns (p: nat)
      requires Valid() && Ready()
      modifies this`live, this`outcomes
      ensures Valid()
      ensures p == old(Next())
      ensures outcomes == Drop(old(outcomes), 1)
      ensures p != Null ==> p !in old(live)
      ensures live == if p == Null then old(live) else old(live)[p := size]
    {
      if outcomes == [] {
        p := Null;
      } else {
        p := outcomes[0];
        outcomes := outcomes[1..];
        if p != Null {
          live := live[p := size];
        }
      }
    }

    /** `fastfilters_memory_free` of a live block. */
    method Free(p: nat)
      requires Valid() && Ready() && p in live
      modifies this`live
      ensures Valid()
      ensures live == old(live) - {p}
    {
      live := live - {p};
    }

    /**
      `fastfilters_memory_align`: allocates `size + alignment + 8` bytes (modulo 2^64, as
      `size_t` wraps), returns the aligned address and stores the offset header below it.
    */
    method Align(alignment: nat, size: nat) returns (p: nat)
      requires Valid() && Ready()
      requires 1 <= alignment < 0xff
      modifies this`live, this`outcomes, this`words
      ensures Valid()
      ensures outcomes == Drop(old(outcomes), 1)
      ensures old(Next()) == Null ==> p == Null && live == old(live) && words == old(words)
      ensures old(Next()) != Null ==>
                && p == AlignedAddress(old(Next()), alignment)
                && live == old(live)[old(Next()) := (size + alignment + 8) % SizeModulus]
                && words == old(words)[p - 8 := Header(p - old(Next()))]
    {
      var raw := Alloc((size + alignment + 8) % SizeModulus);
      if raw == Null {
        return Null;
      }
      p := AlignedAddress(raw, alignment);
      words := words[p - 8 := Header(p - raw)];
    }

    /**
      `fastfilters_memory_align_free`: checks the magic in the header below `p` and releases
      the block that lies the stored offset below `p`.
    */
    method AlignFree(p: nat) returns (r: FreeOutcome)
      requires Valid() && Ready()
      requires p >= 8 && p - 8 in words
      modifies this`live
      ensures Valid()
      ensures var h := words[p - 8];
              var off := HeaderOffset(h);
              && (HeaderMagic(h) != AlignMagic ==> r == MagicMismatch)
              && (HeaderMagic(h) == AlignMagic && off <= p && p - off in old(live) ==> r == Freed(p - off))
              && (HeaderMagic(h) == AlignMagic && !(off <= p && p - off in old(live)) ==>
                    r == InvalidFree(if off <= p then p - off else 0))
      ensures live == if r.Freed? then old(live) - {r.raw} else old(live)
    {
      var h := words[p - 8];
      if HeaderMagic(h) != AlignMagic {
        return MagicMismatch;
      }
      var off := HeaderOffset(h);
      if off <= p && p - off in live {
        Free(p - off);
        r := Freed(p - off);
      } else {
        r := InvalidFree(if off <= p then p - off else 0);
      }
    }
  }

  /** Aligning and then releasing gives the raw block back and leaves no block live. */
  method AlignThenFree(heap: Heap, alignment: nat, size: nat) returns (p: nat, r: FreeOutcome)
    requires heap.Valid() && heap.Ready()
    requires 1 <= alignment && alignment + 7 <= 0xff
    modifies heap
    ensures heap.Valid()
    ensures p == Null <==> old(heap.Next()) == Null
    ensures p != Null ==> r == Freed(old(heap.Next())) && heap.live == old(heap.live)
  {
    var raw := heap.Next();
    p := heap.Align(alignment, size);
    r := MagicMismatch;
    if p != Null {
      AlignFreeRecoversRaw(raw, alignment);
      r := heap.AlignFree(p);
    }
  }
}
