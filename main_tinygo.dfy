/**
  The TinyGo build of the AO process: a 16-aligned stack allocator on the
  global `heapPtr`, stackSave reading it back, a no-op stackRestore, an abort
  that panics, and the same `handle` entry point as the simple build.
 */
module MainTinyGo {
  import opened Wrappers
  import opened Words
  import opened AoHandler

  const HeapStart: u32 := 65536

  /** `(size + 15) &^ 15` on uint32: `size` rounded up to a multiple of 16, or 0 once `size + 15` wraps. */
  function Align16(size: u32): (r: u32)
    ensures r % 16 == 0
    ensures size + 15 < Modulus ==> size <= r < size + 16
    ensures size + 15 >= Modulus ==> r == 0
    ensures size == 0 ==> r == 0
  {
    assert Pow2(4) == 16;
    AndNotClearsLowBits(Add(size, 15), 4);
    AndNot(Add(size, 15), 15)
  }

  /** `heapPtr` after a run of stackAlloc calls; zero-sized calls never move it. */
  function HeapAfter(heap: u32, sizes: seq<u32>): (h: u32)
    ensures (forall k :: 0 <= k < |sizes| ==> sizes[k] == 0) ==> h == heap
    decreases |sizes|
  {
    if |sizes| == 0 then heap else HeapAfter(Add(heap, Align16(sizes[0])), sizes[1..])
  }

  /** The pointers a run of stackAlloc calls returns: one per call, the first being the starting `heapPtr`. */
  function Pointers(heap: u32, sizes: seq<u32>): (ps: seq<u32>)
    ensures |ps| == |sizes|
    ensures |sizes| > 0 ==> ps[0] == heap
    decreases |sizes|
  {
    if |sizes| == 0 then [] else [heap] + Pointers(Add(heap, Align16(sizes[0])), sizes[1..])
  }

  function Footprint(sizes: seq<u32>): nat
    decreases |sizes|
  {
    if |sizes| == 0 then 0 else Align16(sizes[0]) + Footprint(sizes[1..])
  }

  /** The bump pointer advances by the sum of the aligned sizes, modulo 2^32. */
  lemma {:induction false} HeapAfterIsFootprint(heap: u32, sizes: seq<u32>)
    ensures HeapAfter(heap, sizes) == Wrap(heap + Footprint(sizes))
    decreases |sizes|
  {
    if |sizes| > 0 {
      HeapAfterIsFootprint(Add(heap, Align16(sizes[0])), sizes[1..]);
      WrapAdd(heap + Align16(sizes[0]), Footprint(sizes[1..]));
    }
  }

  /**
    From a 16-aligned start, `heapPtr` and every pointer handed out stay
    16-aligned, also across wrap-around.
   */
  lemma {:induction false} RunAligned(heap: u32, sizes: seq<u32>)
    requires heap % 16 == 0
    ensures HeapAfter(heap, sizes) % 16 == 0
    ensures forall p :: p in Pointers(heap, sizes) ==> p % 16 == 0
    decreases |sizes|
  {
    if |sizes| > 0 {
      AddKeepsAlignment(heap, Align16(sizes[0]));
      RunAligned(Add(heap, Align16(sizes[0])), sizes[1..]);
    }
  }

  class Instance {
    var heapPtr: u32
    var resultBuffer: seq<byte>

    ghost predicate Valid()
      reads this
    {
      heapPtr % 16 == 0
    }

    constructor ()
      ensures Valid()
      ensures heapPtr == HeapStart && resultBuffer == []
    {
      heapPtr := 65536;
      resultBuffer := [];
    }

    /** Returns the old `heapPtr` and bumps it by the size rounded up to 16. */
    method StackAlloc(size: u32) returns (ptr: u32)
      modifies this
      ensures ptr == old(heapPtr)
      ensures heapPtr == Add(old(heapPtr), Align16(size))
      ensures size == 0 ==> heapPtr == old(heapPtr)
      ensures resultBuffer == old(resultBuffer)
      ensures old(Valid()) ==> Valid() && ptr % 16 == 0
    {
      var aligned := Align16(size);
      ptr := heapPtr;
      heapPtr := Add(heapPtr, aligned);
      AddKeepsAlignment(ptr, aligned);
    }

    method StackSave() returns (r: u32)
      ensures r == heapPtr
    {
      r := heapPtr;
    }

    /** Does not reset `heapPtr`: nothing allocated is ever given back. */
    method StackRestore(ptr: u32)
      ensures unchanged(this)
    {
    }

    /** As in the simple build; see MainSimpleTinyGo.Instance.Handle. */
    method Handle(mem: seq<byte>, msgJsonPtr: u32, msgJsonLen: u32, envJsonPtr: u32, envJsonLen: u32,
                  parse: seq<byte> -> Option<Json>, marshal: AoResponse -> seq<byte>, address: u32)
      returns (r: Result<u32>)
      modifies this
      ensures heapPtr == old(heapPtr)
      ensures var msg := ReadStringFromMemory(mem, msgJsonPtr, msgJsonLen);
        var env := ReadStringFromMemory(mem, envJsonPtr, envJsonLen);
        if msg.Panic? || env.Panic? then r.Panic? && resultBuffer == old(resultBuffer)
        else
          && resultBuffer == marshal(Reply(parse(msg.value)))
          && (r.Return? <==> |resultBuffer| > 0)
          && (r.Return? ==> r.value == address)
    {
      var msgJson := ReadStringFromMemory(mem, msgJsonPtr, msgJsonLen);
      if msgJson.Panic? {
        return Panic(msgJson.message);
      }
      var envJson := ReadStringFromMemory(mem, envJsonPtr, envJsonLen);
      if envJson.Panic? {
        return Panic(envJson.message);
      }
      var result := HandleAO(msgJson.value, envJson.value, parse);
      resultBuffer := marshal(result);
      if |resultBuffer| == 0 {
        return Panic("index out of range");
      }
      r := Return(address);
    }

    method GetResultLength() returns (n: u32)
      ensures n == |resultBuffer| % Modulus
      ensures |resultBuffer| < Modulus ==> n == |resultBuffer|
    {
      n := Wrap(|resultBuffer|);
    }
  }

  /** stackSave right after stackAlloc(n) sees the old pointer advanced by `align16(n)`. */
  method SaveAfterAlloc(inst: Instance, n: u32) returns (p: u32, saved: u32)
    modifies inst
    ensures p == old(inst.heapPtr) && saved == Add(p, Align16(n))
    ensures saved == inst.heapPtr
  {
    p := inst.StackAlloc(n);
    saved := inst.StackSave();
  }

  /** stackRestore never rewinds: stackSave after stackRestore(q) still sees the bumped pointer. */
  method SaveAfterRestore(inst: Instance, q: u32) returns (saved: u32)
    ensures saved == inst.heapPtr && inst.heapPtr == old(inst.heapPtr)
  {
    inst.StackRestore(q);
    saved := inst.StackSave();
  }
}
