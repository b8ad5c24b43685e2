/**
 Client scenarios: what a caller can conclude from the contracts alone.
 */
module Scenarios {
  import opened AllocatorTraits
  import opened RawBuffers
  import opened AutogrowArrays

  /** An allocator without in-place resize: from empty, capacity doubles by relocation. */
  method GrowWithoutResize()
  {
    var stats := new Counters();
    var a := new AutogrowArray<int>.Init(NoResize, 4, stats);
    var refused := Reply(false, 0);
    var r := a.PushBack(1, refused);
    assert a.Capacity() == 1;
    r := a.PushBack(2, refused);
    assert a.Capacity() == 2;
    r := a.PushBack(3, refused);
    assert a.Capacity() == 4;
    r := a.PushBack(4, refused);
    assert a.Capacity() == 4 && a.Elements() == [1, 2, 3, 4];
    // three full-buffer pushes, three attempts, no in-place success
    assert stats.attempts == 3 && stats.successes == 0;
  }

  /** An allocator without in-place resize: shrink_to_fit relocates to exactly size() slots, once. */
  method ShrinkWithoutResize()
  {
    var stats := new Counters();
    var a := new AutogrowArray<int>.WithSize(NoResize, 4, stats, 4, 0);
    a.PopBack();
    assert a.Elements() == [0, 0, 0] && a.Capacity() == 4;
    a.ShrinkToFit(Reply(false, 0));
    assert a.Elements() == [0, 0, 0] && a.Capacity() == 3;
    assert stats.attempts == 1 && stats.successes == 0;
    a.ShrinkToFit(Reply(false, 0));
    assert a.Capacity() == 3 && stats.attempts == 1;
  }

  /**
   An allocator whose expand_by grants 5 slots when 8 were preferred: the
   array takes the 5 slots in place, without moving its elements.
   */
  method PartialInPlaceGrowth()
  {
    var stats := new Counters();
    var a := new AutogrowArray<int>.WithSize(ExpandAndShrink, 4, stats, 4, 0);
    var block := a.buf.block;
    var r := a.PushBack(7, Reply(true, 5));
    assert a.Capacity() == 5 && a.buf.block == block;
    assert a.Elements() == [0, 0, 0, 0, 7];
    assert stats.attempts == 1 && stats.successes == 1;
  }

  /** push_back followed by pop_back gives back the elements it started with, on every path. */
  method PushThenPop(a: AutogrowArray<int>, v: int, answer: Reply)
    requires a.Valid()
    requires a.next == a.buf.Capacity() ==>
      ExpandRule(a.buf.block != null, a.buf.Capacity(), a.buf.MaxCapacity(), answer)
    modifies a.Repr
    ensures a.Valid()
    ensures a.Elements() == old(a.Elements())
  {
    var r := a.PushBack(v, answer);
    if r.Pass? {
      a.PopBack();
    }
  }

  /**
   An allocation given up by a relocation stays deallocated, with its
   moved-from element still constructed, through the calls that follow.
   */
  method RelocatedBlockStaysReleased()
  {
    var stats := new Counters();
    var a := new AutogrowArray<int>.Init(NoResize, 4, stats);
    var refused := Reply(false, 0);
    var r := a.PushBack(1, refused);
    var first := a.buf.block;
    r := a.PushBack(2, refused);
    assert !first.inUse && first.slots == [Live(1)];
    r := a.PushBack(3, refused);
    r := a.PushBack(4, refused);
    a.PopBack();
    a.Clear();
    assert !first.inUse && first.slots == [Live(1)];
  }
}
