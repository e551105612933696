/**
  The strided two-dimensional image descriptor of `src/array.c`: a descriptor block and a float
  buffer, both taken from the library's allocator.
*/
module Array2d {
  import opened Memory

  /** `sizeof(fastfilters_array2d_t)`: a pointer and five `size_t` fields of 8 bytes. */
  const DescriptorBytes: nat := 48

  /** `sizeof(float)`. */
  const FloatBytes: nat := 4

  /**
    An interleaved image: pixel (x, y), channel c is element `y * strideY + x * strideX + c`
    of `data`, whose elements stand for the floats of the buffer at `ptr`.
  */
  class Image {
    /** The address of the descriptor block. */
    var addr: nat
    /** The address of the float buffer. */
    var ptr: nat
    var data: array<real>
    var nX: nat
    var nY: nat
    var strideX: nat
    var strideY: nat
    var nChannels: nat

    /** The layout `fastfilters_array2d_alloc` sets up. */
    predicate Packed()
      reads this
    {
      && strideX == nChannels
      && strideY == nChannels * nX
      && data.Length == nY * strideY
    }

    constructor (addr: nat, ptr: nat, nX: nat, nY: nat, channels: nat)
      ensures fresh(data)
      ensures this.addr == addr && this.ptr == ptr
      ensures this.nX == nX && this.nY == nY && nChannels == channels
      ensures strideX == channels && strideY == channels * nX
      ensures data.Length == channels * nY * nX
    {
      this.addr, this.ptr := addr, ptr;
      this.nX, this.nY := nX, nY;
      strideX, strideY, nChannels := channels, channels * nX, channels;
      data := new real[channels * nY * nX];
    }
  }

  /** The size of the float buffer in bytes. */
  function BufferBytes(nX: nat, nY: nat, channels: nat): nat
  {
    channels * nY * nX * FloatBytes
  }

  /**
    `fastfilters_array2d_alloc`: on success the image records its dimensions with the packed
    strides and owns two new blocks; on either allocation failure it returns NULL and no block
    stays allocated.
  */
  method Alloc(heap: Heap, nX: nat, nY: nat, channels: nat) returns (a: Image?)
    requires heap.Valid() && heap.Ready()
    modifies heap`live, heap`outcomes
    ensures heap.Valid()
    ensures var o := old(heap.outcomes);
            heap.outcomes == Drop(o, if Outcome(o, 0) == Null then 1 else 2)
    ensures var o := old(heap.outcomes);
            a == null <==> Outcome(o, 0) == Null || Outcome(o, 1) == Null
    ensures a == null ==> heap.live == old(heap.live)
    ensures a != null ==>
              && fresh(a) && fresh(a.data)
              && a.addr == Outcome(old(heap.outcomes), 0)
              && a.ptr == Outcome(old(heap.outcomes), 1)
              && a.nX == nX && a.nY == nY && a.nChannels == channels
              && a.Packed()
              && a.data.Length == channels * nY * nX
              && a.addr !in old(heap.live) && a.ptr !in old(heap.live) && a.addr != a.ptr
              && heap.live == old(heap.live)[a.addr := DescriptorBytes][a.ptr := BufferBytes(nX, nY, channels)]
  {
    ghost var o := heap.outcomes;
    var desc := heap.Alloc(DescriptorBytes);
    if desc == Null {
      return null;
    }
    var buf := heap.Alloc(BufferBytes(nX, nY, channels));
    if buf == Null {
      heap.Free(desc);
      assert heap.live == old(heap.live);
      return null;
    }
    assert Outcome(o, 1) == buf by {
      assert heap.outcomes == Drop(o, 2);
    }
    a := new Image(desc, buf, nX, nY, channels);
    assert channels * nY * nX == nY * (channels * nX) by {
      LemmaMulComm3(channels, nY, nX);
    }
  }

  lemma LemmaMulComm3(c: nat, y: nat, x: nat)
    ensures c * y * x == y * (c * x)
  {
  }

  /** `fastfilters_array2d_free`: releases the buffer, then the descriptor. */
  method Free(heap: Heap, a: Image)
    requires heap.Valid() && heap.Ready()
    requires a.addr in heap.live && a.ptr in heap.live && a.addr != a.ptr
    modifies heap`live
    ensures heap.Valid()
    ensures heap.live == old(heap.live) - {a.ptr, a.addr}
  {
    heap.Free(a.ptr);
    heap.Free(a.addr);
  }
}
