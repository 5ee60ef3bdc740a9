/**
  The simple TinyGo build of the AO process: a bump allocator on `heapPtr`
  with 8-byte alignment, constant stack stubs, and the `handle` entry point
  that stores its JSON answer in `resultBuffer`.
 */
module MainSimpleTinyGo {
  import opened Wrappers
  import opened Words
  import opened AoHandler

  /** Where `heapPtr` starts: just past the first 64 KiB page. */
  const HeapStart: u32 := 65536

  /** `(size + 7) &^ 7` on uint32: `size` rounded up to a multiple of 8, or 0 once `size + 7` wraps. */
  function Align8(size: u32): (r: u32)
    ensures r % 8 == 0
    ensures size + 7 < Modulus ==> size <= r < size + 8
    ensures size + 7 >= Modulus ==> r == 0
  {
    assert Pow2(3) == 8;
    AndNotClearsLowBits(Add(size, 7), 3);
    AndNot(Add(size, 7), 7)
  }

  /** A pointer handed out and the bump pointer after the call. */
  datatype Alloc = Alloc(ptr: u32, heap: u32)

  /** malloc on a given `heapPtr`: size 0 gives 0 and leaves the heap alone. */
  function MallocStep(heap: u32, size: u32): (a: Alloc)
    ensures size == 0 ==> a.ptr == 0 && a.heap == heap
    ensures size != 0 ==> a.ptr == heap
    ensures a.heap == Add(heap, Align8(size))
    ensures heap % 8 == 0 ==> a.heap % 8 == 0 && a.ptr % 8 == 0
    ensures size != 0 && size + 7 < Modulus && heap + Align8(size) < Modulus ==>
      a.ptr + size <= a.heap && a.heap - a.ptr < size + 8
  {
    AddKeepsAlignment(heap, Align8(size));
    if size == 0 then Alloc(0, heap) else Alloc(heap, Add(heap, Align8(size)))
  }

  /** The pointers a run of malloc calls returns, starting from `heap`: one per call, 0 for each size-0 call. */
  function Pointers(heap: u32, sizes: seq<u32>): (ps: seq<u32>)
    ensures |ps| == |sizes|
    ensures forall k :: 0 <= k < |sizes| && sizes[k] == 0 ==> ps[k] == 0
    decreases |sizes|
  {
    if |sizes| == 0 then []
    else [MallocStep(heap, sizes[0]).ptr] + Pointers(MallocStep(heap, sizes[0]).heap, sizes[1..])
  }

  /** `heapPtr` after a run of malloc calls; calls of size 0 never move it. */
  function HeapAfter(heap: u32, sizes: seq<u32>): (h: u32)
    ensures (forall k :: 0 <= k < |sizes| ==> sizes[k] == 0) ==> h == heap
    decreases |sizes|
  {
    if |sizes| == 0 then heap else HeapAfter(MallocStep(heap, sizes[0]).heap, sizes[1..])
  }

  /** The bytes a run of malloc calls reserves, before wrap-around. */
  function Footprint(sizes: seq<u32>): nat
    decreases |sizes|
  {
    if |sizes| == 0 then 0 else Align8(sizes[0]) + Footprint(sizes[1..])
  }

  // ---------------------------------------------------------------------------
  // Runs of malloc calls

  /** The bump pointer advances by the sum of the aligned sizes, modulo 2^32. */
  lemma {:induction false} HeapAfterIsFootprint(heap: u32, sizes: seq<u32>)
    ensures HeapAfter(heap, sizes) == Wrap(heap + Footprint(sizes))
    decreases |sizes|
  {
    if |sizes| > 0 {
      var next := MallocStep(heap, sizes[0]).heap;
      HeapAfterIsFootprint(next, sizes[1..]);
      WrapAdd(heap + Align8(sizes[0]), Footprint(sizes[1..]));
    }
  }

  /** One more call extends the run by one step. */
  lemma {:induction false} HeapAfterSnoc(heap: u32, sizes: seq<u32>, size: u32)
    ensures HeapAfter(heap, sizes + [size]) == MallocStep(HeapAfter(heap, sizes), size).heap
    decreases |sizes|
  {
    if |sizes| > 0 {
      assert (sizes + [size])[1..] == sizes[1..] + [size];
      HeapAfterSnoc(MallocStep(heap, sizes[0]).heap, sizes[1..], size);
    } else {
      assert (sizes + [size])[1..] == [];
    }
  }

  /** A nonzero call returns the bump pointer as the earlier calls left it. */
  lemma {:induction false} PointerIsHeapBefore(heap: u32, sizes: seq<u32>, i: nat)
    requires i < |sizes|
    ensures |Pointers(heap, sizes)| == |sizes|
    ensures Pointers(heap, sizes)[i] == (if sizes[i] == 0 then 0 else HeapAfter(heap, sizes[..i]))
    decreases i
  {
    if i > 0 {
      var next := MallocStep(heap, sizes[0]).heap;
      PointerIsHeapBefore(next, sizes[1..], i - 1);
      assert sizes[1..][..i - 1] == sizes[..i][1..];
      assert Pointers(heap, sizes)[i] == Pointers(next, sizes[1..])[i - 1];
    }
  }

  /** Successive nonzero calls: each pointer is the previous one plus its aligned size. */
  lemma Successive(heap: u32, sizes: seq<u32>, i: nat)
    requires i + 1 < |sizes| && sizes[i] != 0 && sizes[i + 1] != 0
    ensures |Pointers(heap, sizes)| == |sizes|
    ensures Pointers(heap, sizes)[i + 1] == Add(Pointers(heap, sizes)[i], Align8(sizes[i]))
  {
    PointerIsHeapBefore(heap, sizes, i);
    PointerIsHeapBefore(heap, sizes, i + 1);
    assert sizes[..i + 1] == sizes[..i] + [sizes[i]];
    HeapAfterSnoc(heap, sizes[..i], sizes[i]);
  }

  /** From an 8-aligned start, every pointer returned and the bump pointer stay 8-aligned. */
  lemma {:induction false} RunAligned(heap: u32, sizes: seq<u32>)
    requires heap % 8 == 0
    ensures HeapAfter(heap, sizes) % 8 == 0
    ensures forall p :: p in Pointers(heap, sizes) ==> p % 8 == 0
    decreases |sizes|
  {
    if |sizes| > 0 {
      RunAligned(MallocStep(heap, sizes[0]).heap, sizes[1..]);
    }
  }

  lemma {:induction false} FootprintAppend(a: seq<u32>, b: seq<u32>)
    ensures Footprint(a + b) == Footprint(a) + Footprint(b)
    decreases |a|
  {
    if |a| > 0 {
      assert (a + b)[1..] == a[1..] + b;
      FootprintAppend(a[1..], b);
    } else {
      assert a + b == b;
    }
  }

  /**
    Without 32-bit overflow (every size leaves room for rounding up, and the
    whole run fits below 2^32), the blocks of two nonzero calls do not overlap:
    a later block starts at or after the end of an earlier one.
   */
  lemma NoOverlap(heap: u32, sizes: seq<u32>, i: nat, j: nat)
    requires i < j < |sizes| && sizes[i] != 0 && sizes[j] != 0
    requires forall k :: 0 <= k < |sizes| ==> sizes[k] + 7 < Modulus
    requires heap + Footprint(sizes) < Modulus
    ensures |Pointers(heap, sizes)| == |sizes|
    ensures Pointers(heap, sizes)[i] as int + sizes[i] as int <= Pointers(heap, sizes)[j] as int
  {
    PointerIsHeapBefore(heap, sizes, i);
    PointerIsHeapBefore(heap, sizes, j);
    ghost var ps := Pointers(heap, sizes);
    assert ps[i] == HeapAfter(heap, sizes[..i]) && ps[j] == HeapAfter(heap, sizes[..j]);
    FootprintSplit(sizes, i, j);
    HeapAfterIsFootprint(heap, sizes[..i]);
    HeapAfterIsFootprint(heap, sizes[..j]);
    WrapBelow(heap + Footprint(sizes[..i]));
    WrapBelow(heap + Footprint(sizes[..j]));
  }

  lemma WrapBelow(n: nat)
    requires n < Modulus
    ensures Wrap(n) == n
  {
  }

  lemma FootprintSingle(x: u32)
    ensures Footprint([x]) == Align8(x)
  {
    assert [x][1..] == [];
  }

  /** Cutting a run at `i < j`: the part before `j` reserves at least block `i` beyond the part before `i`. */
  lemma FootprintSplit(sizes: seq<u32>, i: nat, j: nat)
    requires i < j <= |sizes| && sizes[i] + 7 < Modulus
    ensures Footprint(sizes[..i]) + sizes[i] <= Footprint(sizes[..j]) <= Footprint(sizes)
  {
    var pre, mid, post := sizes[..i], sizes[i + 1..j], sizes[j..];
    var x := sizes[i];
    assert sizes[..i + 1] == pre + [x];
    assert sizes[..j] == sizes[..i + 1] + mid;
    assert sizes == sizes[..j] + post;
    FootprintAppend(sizes[..j], post);
    FootprintAppend(sizes[..i + 1], mid);
    FootprintAppend(pre, [x]);
    FootprintSingle(x);
  }

  // ---------------------------------------------------------------------------
  // The constant stack stubs: they read and write nothing

  /** stackSave: always the start of the heap. */
  function StackSave(): (r: u32)
    ensures r == HeapStart
  {
    65536
  }

  /** stackAlloc: a dummy pointer `size` bytes past 65536, wrapping at 2^32. */
  function StackAlloc(size: u32): (r: u32)
    ensures size < Modulus - 65536 ==> r == 65536 + size && r - StackSave() == size
    ensures size >= Modulus - 65536 ==> r == size - (Modulus - 65536)
  {
    Add(65536, size)
  }

  /** `_emscripten_stack_get_end`: 128 KiB, one page above stackSave. */
  function StackGetEnd(): (r: u32)
    ensures r == 131072 && r == StackSave() + 65536
  {
    131072
  }

  /** `emscripten_stack_get_end` forwards to `_emscripten_stack_get_end`. */
  function EmscriptenStackGetEnd(): (r: u32)
    ensures r == 131072
  {
    StackGetEnd()
  }

  // ---------------------------------------------------------------------------
  // The package's globals

  class Instance {
    var heapPtr: u32
    var resultBuffer: seq<byte>

    ghost predicate Valid()
      reads this
    {
      heapPtr % 8 == 0
    }

    /** The globals as the program starts: `heapPtr` at 65536, no result yet. */
    constructor ()
      ensures Valid()
      ensures heapPtr == HeapStart && resultBuffer == []
    {
      heapPtr := 65536;
      resultBuffer := [];
    }

    /** The bump allocator; its pointer and new `heapPtr` are those of MallocStep. */
    method Malloc(size: u32) returns (ptr: u32)
      modifies this
      ensures ptr == MallocStep(old(heapPtr), size).ptr && heapPtr == MallocStep(old(heapPtr), size).heap
      ensures resultBuffer == old(resultBuffer)
      ensures old(Valid()) ==> Valid() && ptr % 8 == 0
    {
      if size == 0 {
        return 0;
      }
      var aligned := Align8(size);
      ptr := heapPtr;
      heapPtr := Add(heapPtr, aligned);
    }

    method Free(ptr: u32)
      ensures unchanged(this)
    {
    }

    method StackRestore(ptr: u32)
      ensures unchanged(this)
    {
    }

    /** `_emscripten_stack_init`. */
    method StackInit()
      ensures unchanged(this)
    {
    }

    method EmscriptenStackInit()
      ensures unchanged(this)
    {
    }

    /**
      handle: reads both strings (either read may panic), answers the message,
      stores the marshalled answer in `resultBuffer` and returns its address,
      which the runtime chooses (`address`).  Taking `&resultBuffer[0]` of an
      empty buffer panics.
     */
    method Handle(mem: seq<byte>, msgJsonPtr: u32, msgJsonLen: u32, envJsonPtr: u32, envJsonLen: u32,
                  parse: seq<byte> -> Option<Json>, marshal: AoResponse -> seq<byte>, address: u32)
      returns (r: Result<u32>)
      modifies this
      ensures heapPtr == old(heapPtr)
      ensures var msg := ReadStringFromMemory(mem, msgJsonPtr, msgJsonLen);
        var env := ReadStringFromMemory(mem, envJsonPtr, envJsonLen);
        if msg.Panic? || env.Panic? then r.Panic? && resultBuffer == old(resultBuffer)
        else
          && resultBuffer == marshal(Reply(parse(msg.value)))
          && (r.Return? <==> |resultBuffer| > 0)
          && (r.Return? ==> r.value == address)
    {
      var msgJson := ReadStringFromMemory(mem, msgJsonPtr, msgJsonLen);
      if msgJson.Panic? {
        return Panic(msgJson.message);
      }
      var envJson := ReadStringFromMemory(mem, envJsonPtr, envJsonLen);
      if envJson.Panic? {
        return Panic(envJson.message);
      }
      var result := HandleAO(msgJson.value, envJson.value, parse);
      resultBuffer := marshal(result);
      if |resultBuffer| == 0 {
        return Panic("index out of range");
      }
      r := Return(address);
    }

    /** `uint32(len(resultBuffer))`: the stored length, truncated to 32 bits. */
    method GetResultLength() returns (n: u32)
      ensures n == |resultBuffer| % Modulus
      ensures |resultBuffer| < Modulus ==> n == |resultBuffer|
    {
      n := Wrap(|resultBuffer|);
    }
  }
}
