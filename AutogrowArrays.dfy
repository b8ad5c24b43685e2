/**
 Model of autogrow_array: a vector whose live elements occupy slots
 [0, next) of one raw_buffer.  When full, push_back first asks the allocator
 to grow the buffer in place and relocates only when that fails;
 shrink_to_fit does the same with an in-place shrink.
 */
module AutogrowArrays {
  import opened AllocatorTraits
  import opened RawBuffers
  import opened AutogrowSpec

  class AutogrowArray<T> {
    const buf: RawBuffer<T>
    /** next: the index one past the last live element. */
    var next: nat
    ghost var Repr: set<object>

    ghost predicate Valid()
      reads this, Repr
    {
      // exactly the objects the array owns or shares: no allocation it has let go of
      buf in Repr && Repr == {this, buf, buf.stats} + (if buf.block != null then {buf.block} else {}) &&
      buf.Valid() && buf.stats.Valid() &&
      (buf.block == null ==> next == 0) &&
      (buf.block != null ==> Layout(buf.block.slots, next))
    }

    /** The live elements, in order. */
    ghost function Elements(): seq<T>
      reads this, Repr
      requires Valid()
    {
      if buf.block == null then [] else Values(buf.block.slots, next)
    }

    /** size(). */
    function Size(): (n: nat)
      reads this, Repr
      requires Valid()
      ensures n == |Elements()|
      ensures n <= buf.Capacity()
    {
      next
    }

    /** empty(). */
    function Empty(): (e: bool)
      reads this, Repr
      requires Valid()
      ensures e <==> Elements() == []
    {
      next == 0
    }

    /** capacity(). */
    function Capacity(): (c: nat)
      reads this, Repr
      requires Valid()
      ensures |Elements()| <= c <= buf.MaxCapacity()
    {
      buf.Capacity()
    }

    /** The default constructor: no allocation, no elements. */
    constructor Init(alloc: Capability, elemSize: ElementSize, stats: Counters)
      requires stats.Valid()
      ensures Valid() && fresh(Repr - {stats})
      ensures Elements() == [] && Capacity() == 0
      ensures buf.alloc == alloc && buf.elemSize == elemSize && buf.stats == stats
    {
      buf := new RawBuffer.Empty(alloc, elemSize, stats);
      next := 0;
      Repr := {this, buf, stats};
    }

    /** autogrow_array(initial_size): initialSize copies of the value-initialised element `init`. */
    constructor WithSize(alloc: Capability, elemSize: ElementSize, stats: Counters, initialSize: nat, init: T)
      requires stats.Valid() && initialSize <= SizeMax / elemSize
      ensures Valid() && fresh(Repr - {stats})
      ensures Elements() == seq(initialSize, _ => init) && Capacity() == initialSize
      ensures buf.alloc == alloc && buf.elemSize == elemSize && buf.stats == stats
    {
      buf := new RawBuffer.Allocate(alloc, elemSize, stats, initialSize);
      next := 0;
      new;
      Repr := {this, buf, stats, buf.block};
      var i := 0;
      while i < initialSize
        invariant i <= initialSize
        invariant buf.Valid() && buf.block != null && |buf.block.slots| == initialSize
        invariant Layout(buf.block.slots, i)
        invariant forall j :: 0 <= j < i ==> buf.block.slots[j] == Live(init)
        modifies buf.block
      {
        buf.Construct(i, init);
        i := i + 1;
      }
      next := i;
      assert Values(buf.block.slots, next) == seq(initialSize, _ => init);
    }

    /**
     Move the live elements, in order, into a fresh buffer of `capacity` slots
     and swap it in.  The old allocation is then released without its
     moved-from elements being destroyed.
     */
    method RelocateTo(capacity: nat)
      requires Valid() && next <= capacity <= buf.MaxCapacity()
      modifies Repr
      ensures Valid() && fresh(Repr - old(Repr))
      ensures next == old(next) && Elements() == old(Elements())
      ensures buf.block != null && fresh(buf.block) && buf.Capacity() == capacity
      ensures buf.stats.attempts == old(buf.stats.attempts)
      ensures buf.stats.successes == old(buf.stats.successes)
      ensures old(buf.block) != null ==> !old(buf.block).inUse && old(buf.block).slots == old(buf.block.slots)
    {
      ghost var moved := Elements();
      var newBuf := new RawBuffer.Allocate(buf.alloc, buf.elemSize, buf.stats, capacity);
      var i := 0;
      while i < next
        invariant 0 <= i <= next
        invariant newBuf.Valid() && newBuf.block != null && fresh(newBuf.block)
        invariant |newBuf.block.slots| == capacity
        invariant Layout(newBuf.block.slots, i) && Values(newBuf.block.slots, i) == moved[..i]
        modifies newBuf.block
      {
        ConstructLast(newBuf.block.slots, i, buf.block.slots[i].value);
        newBuf.Construct(i, buf.block.slots[i].value);
        i := i + 1;
      }
      buf.Swap(newBuf);
      newBuf.Release();
      Repr := {this, buf, buf.stats, buf.block};
    }

    /**
     push_back(v), with `answer` the allocator's reply should expand_by be
     called.  Fails with LengthError, changing nothing, when the array is
     full at max_capacity.
     */
    method PushBack(v: T, answer: Reply) returns (r: Outcome)
      requires Valid()
      requires next == buf.Capacity() ==> ExpandRule(buf.block != null, buf.Capacity(), buf.MaxCapacity(), answer)
      modifies Repr
      ensures Valid() && fresh(Repr - old(Repr))
      ensures var p := old(PushBackPath(buf.alloc, buf.Capacity(), next, buf.MaxCapacity(), answer));
        (r.Fail? <==> p.Overflow?) &&
        (r.Fail? ==> r.error == LengthError && Elements() == old(Elements())) &&
        (r.Pass? ==> Elements() == old(Elements()) + [v]) &&
        buf.Capacity() == PushedCapacity(p, old(buf.Capacity())) &&
        (p.Room? || p.Overflow? ==>
           buf.block == old(buf.block) &&
           buf.stats.attempts == old(buf.stats.attempts) &&
           buf.stats.successes == old(buf.stats.successes)) &&
        (p.GrownInPlace? ==>
           buf.block == old(buf.block) &&
           buf.stats.attempts == old(buf.stats.attempts) + 1 &&
           buf.stats.successes == old(buf.stats.successes) + 1) &&
        (p.Relocated? ==>
           fresh(buf.block) &&
           buf.stats.attempts == old(buf.stats.attempts) + 1 &&
           buf.stats.successes == old(buf.stats.successes) &&
           (old(buf.block) != null ==> !old(buf.block).inUse && old(buf.block).slots == old(buf.block.slots)))
    {
      if next == buf.Capacity() {
        var add := AdditionalCapacity(buf.Capacity(), buf.MaxCapacity(), 1);
        if add.Err? {
          return Fail(add.error);
        }
        var grown := buf.ExpandByAtLeast(add.value, 1, answer);
        if grown {
          ResizeRaw(old(buf.block.slots), next, buf.block.slots);
        } else {
          RelocateTo(next + add.value);
        }
      }
      ConstructLast(buf.block.slots, next, v);
      buf.Construct(next, v);
      next := next + 1;
      r := Pass;
    }

    /** pop_back, destroying the last element (slot next - 1), not slot next. */
    method PopBack()
      requires Valid() && |Elements()| > 0
      modifies Repr
      ensures Valid() && Repr == old(Repr)
      ensures Elements() == old(Elements())[..|old(Elements())| - 1]
      ensures buf.block == old(buf.block) && buf.Capacity() == old(buf.Capacity())
      ensures buf.block != null && (buf.block.slots, next) == PopBackSlots(old(buf.block.slots), old(next))
      ensures buf.stats.attempts == old(buf.stats.attempts)
      ensures buf.stats.successes == old(buf.stats.successes)
    {
      buf.Destroy(next - 1);
      next := next - 1;
    }

    /** clear: pop_back until empty. */
    method Clear()
      requires Valid()
      modifies Repr
      ensures Valid() && Repr == old(Repr)
      ensures Elements() == []
      ensures buf.block == old(buf.block) && buf.Capacity() == old(buf.Capacity())
      ensures buf.stats.attempts == old(buf.stats.attempts)
      ensures buf.stats.successes == old(buf.stats.successes)
    {
      while !Empty()
        invariant Valid() && Repr == old(Repr)
        invariant buf.block == old(buf.block) && buf.Capacity() == old(buf.Capacity())
        invariant Elements() == old(Elements())[..next]
        invariant buf.stats.attempts == old(buf.stats.attempts)
        invariant buf.stats.successes == old(buf.stats.successes)
        decreases next
      {
        PopBack();
      }
    }

    /** The destructor: clear, then release the allocation. */
    method Dispose()
      requires Valid()
      modifies Repr
      ensures buf.block == old(buf.block)
      ensures buf.block != null ==> !buf.block.inUse && buf.block.slots == seq(|buf.block.slots|, _ => Uninit)
      ensures buf.stats.attempts == old(buf.stats.attempts)
      ensures buf.stats.successes == old(buf.stats.successes)
    {
      Clear();
      if buf.block != null {
        assert buf.block.slots == seq(|buf.block.slots|, _ => Uninit);
      }
      buf.Release();
    }

    /**
     shrink_to_fit, with `answer` the allocator's reply should shrink_by be
     called.  The live elements never change.
     */
    method ShrinkToFit(answer: Reply)
      requires Valid()
      requires next < buf.Capacity() ==> ShrinkRule(buf.Capacity(), buf.Capacity() - next, answer)
      modifies Repr
      ensures Valid() && fresh(Repr - old(Repr))
      ensures Elements() == old(Elements())
      ensures var p := old(ShrinkToFitPath(buf.alloc, buf.Capacity(), next, answer));
        buf.Capacity() == ShrunkCapacity(p, old(buf.Capacity()), old(next)) &&
        (p.AlreadyFit? ==>
           buf.block == old(buf.block) &&
           buf.stats.attempts == old(buf.stats.attempts) &&
           buf.stats.successes == old(buf.stats.successes)) &&
        (p.ShrunkInPlace? ==>
           buf.block == old(buf.block) &&
           buf.stats.attempts == old(buf.stats.attempts) + 1 &&
           buf.stats.successes == old(buf.stats.successes) + 1) &&
        (p.RelocatedToFit? ==>
           fresh(buf.block) &&
           buf.stats.attempts == old(buf.stats.attempts) + 1 &&
           buf.stats.successes == old(buf.stats.successes) &&
           (old(buf.block) != null ==> !old(buf.block).inUse && old(buf.block).slots == old(buf.block.slots)))
    {
      if Size() == Capacity() {
        return;
      }
      var shrunk := buf.ShrinkBy(buf.Capacity() - next, answer);
      if shrunk {
        ResizeRaw(old(buf.block.slots), next, buf.block.slots);
      } else {
        RelocateTo(next);
      }
    }
  }
}
