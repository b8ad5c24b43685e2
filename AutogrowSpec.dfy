/**
 The decisions of autogrow_array as functions of its state: which slots are
 live, which path push_back and shrink_to_fit take and the capacity each path
 leaves, and what pop_back does to the slots.
 */
module AutogrowSpec {
  import opened AllocatorTraits
  import opened RawBuffers

  datatype Option<T> = None | Some(value: T)

  /** Slots [0, n) hold constructed elements, slots [n, |slots|) are raw storage. */
  predicate Layout<T>(slots: seq<Slot<T>>, n: nat)
  {
    n <= |slots| &&
    (forall i :: 0 <= i < n ==> slots[i].Live?) &&
    (forall i :: n <= i < |slots| ==> slots[i].Uninit?)
  }

  /** The elements held by the first n slots. */
  function Values<T>(slots: seq<Slot<T>>, n: nat): (r: seq<T>)
    requires Layout(slots, n)
    ensures |r| == n
    ensures forall i :: 0 <= i < n ==> slots[i] == Live(r[i])
  {
    seq(n, i requires 0 <= i < n => slots[i].value)
  }

  /** Constructing an element in the first raw slot appends it to the live elements. */
  lemma ConstructLast<T>(slots: seq<Slot<T>>, n: nat, v: T)
    requires Layout(slots, n) && n < |slots|
    ensures Layout(slots[n := Live(v)], n + 1)
    ensures Values(slots[n := Live(v)], n + 1) == Values(slots, n) + [v]
  {
  }

  /** Raw slots added at the end, or raw slots cut off the end, leave the live elements alone. */
  lemma ResizeRaw<T>(slots: seq<Slot<T>>, n: nat, newSlots: seq<Slot<T>>)
    requires Layout(slots, n) && n <= |newSlots|
    requires forall i :: 0 <= i < |newSlots| ==> newSlots[i] == if i < |slots| then slots[i] else Uninit
    ensures Layout(newSlots, n) && Values(newSlots, n) == Values(slots, n)
  {
  }

  /** Destroying slot i is defined only for a constructed element in range; None marks undefined behaviour. */
  function DestroySlot<T>(slots: seq<Slot<T>>, i: nat): (r: Option<seq<Slot<T>>>)
    ensures r.Some? <==> i < |slots| && slots[i].Live?
    ensures r.Some? ==> |r.value| == |slots| && r.value[i] == Uninit
    ensures r.Some? ==> forall j :: 0 <= j < |slots| && j != i ==> r.value[j] == slots[j]
  {
    if i < |slots| && slots[i].Live? then Some(slots[i := Uninit]) else None
  }

  /**
   pop_back as written: destroy the slot at `next`, then step `next` back.
   The result is the slots after the destroy and the new `next`.  A destroy
   past the end of the allocation is undefined (None).  Destroying a raw slot
   inside it is read as leaving that slot raw, which holds for a trivially
   destructible T (such as int); for any other T it is undefined as well.
   */
  function PopBackSlotsAsWritten<T>(slots: seq<Slot<T>>, next: nat): (Option<seq<Slot<T>>>, nat)
    requires Layout(slots, next) && 0 < next
  {
    (if next < |slots| then Some(slots[next := Uninit]) else None, next - 1)
  }

  /**
   As written, pop_back never destroys an element: a full array destroys past
   the end, any other leaves its slots as they were, so the element it meant to
   remove stays constructed beyond the new end and the slot layout is broken.
   */
  lemma PopBackAsWrittenIsUndefined<T>(slots: seq<Slot<T>>, next: nat)
    requires Layout(slots, next) && 0 < next
    ensures var (r, n) := PopBackSlotsAsWritten(slots, next);
      n == next - 1 &&
      (r.None? <==> next == |slots|) &&
      (r.Some? ==> r.value == slots && r.value[n] == Live(slots[next - 1].value) && !Layout(r.value, n))
  {
  }

  /** pop_back corrected: step `next` back, then destroy the slot it names. */
  function PopBackSlots<T>(slots: seq<Slot<T>>, next: nat): (r: (seq<Slot<T>>, nat))
    requires Layout(slots, next) && 0 < next
    ensures r.1 == next - 1 && |r.0| == |slots|
    ensures Layout(r.0, r.1)
    ensures Values(r.0, r.1) == Values(slots, next)[..next - 1]
  {
    var s := DestroySlot(slots, next - 1).value;
    assert Values(s, next - 1) == Values(slots, next)[..next - 1] by {
      forall i | 0 <= i < next - 1
        ensures Values(s, next - 1)[i] == Values(slots, next)[i]
      {
        assert s[i] == slots[i];
      }
    }
    (s, next - 1)
  }

  /** The way push_back makes room for one more element. */
  datatype PushPath =
    | Room                             // next != end: construct in place
    | GrownInPlace(capacity: nat)      // full, and the allocator grew the block
    | Relocated(capacity: nat)         // full, moved to a fresh block of this capacity
    | Overflow                         // full at max_capacity: length_error

  /**
   The path push_back takes with `size` live elements in `cap` slots, when
   the allocator would answer `answer` to expand_by.
   */
  function PushBackPath(alloc: Capability, cap: nat, size: nat, maxCap: nat, answer: Reply): (p: PushPath)
    requires size <= cap <= maxCap
    requires size == cap ==> ExpandRule(true, cap, maxCap, answer)
    ensures p.Room? <==> size < cap
    ensures p.Overflow? <==> size == cap == maxCap
    ensures p.GrownInPlace? <==> size == cap < maxCap && alloc.hasExpandBy && answer.ok
    ensures p.GrownInPlace? ==> p.capacity == answer.size
    ensures p.Relocated? ==>
              AdditionalCapacity(cap, maxCap, 1).Ok? &&
              p.capacity == size + AdditionalCapacity(cap, maxCap, 1).value
    // whenever the element has to go into new room, there is room for it, within bounds
    ensures p.GrownInPlace? || p.Relocated? ==> size < p.capacity <= maxCap
  {
    if size < cap then Room
    else match AdditionalCapacity(cap, maxCap, 1)
      case Err(_) => Overflow
      case Ok(add) =>
        var grown := ExpandBy(alloc, cap, add, 1, answer);
        if grown.ok then GrownInPlace(grown.size) else Relocated(size + add)
  }

  /** The capacity after a push_back that did not overflow. */
  function PushedCapacity(p: PushPath, cap: nat): nat
  {
    match p
    case Room => cap
    case GrownInPlace(c) => c
    case Relocated(c) => c
    case Overflow => cap
  }

  /**
   Capacity after k push_backs into an empty array whose allocator has no
   in-place expansion.
   */
  function RelocatingPushes(k: nat, maxCap: nat): (c: nat)
    requires k <= maxCap
    ensures k <= c <= maxCap
  {
    if k == 0 then 0
    else
      var c := RelocatingPushes(k - 1, maxCap);
      PushedCapacity(PushBackPath(NoResize, c, k - 1, maxCap, Reply(false, 0)), c)
  }

  predicate IsPowerOfTwo(n: nat)
  {
    if n <= 1 then n == 1 else n % 2 == 0 && IsPowerOfTwo(n / 2)
  }

  /**
   Growth from empty by relocation doubles: after k >= 1 push_backs the
   capacity is a power of two in [k, 2k), as long as doubling stays within
   max_capacity.
   */
  lemma {:induction false} RelocatingPushesDouble(k: nat, maxCap: nat)
    requires 1 <= k && 2 * k <= maxCap
    ensures IsPowerOfTwo(RelocatingPushes(k, maxCap))
    ensures k <= RelocatingPushes(k, maxCap) < 2 * k
  {
    if k > 1 {
      RelocatingPushesDouble(k - 1, maxCap);
      var c := RelocatingPushes(k - 1, maxCap);
      if c == k - 1 {
        assert RelocatingPushes(k, maxCap) == 2 * c;
        assert (2 * c) / 2 == c;
      }
    }
  }

  /** The first push_backs of such an array give capacities 1, 2, 4, 4, 8. */
  lemma RelocatingPushesFromEmpty(maxCap: nat)
    requires 8 <= maxCap
    ensures RelocatingPushes(1, maxCap) == 1
    ensures RelocatingPushes(2, maxCap) == 2
    ensures RelocatingPushes(3, maxCap) == 4
    ensures RelocatingPushes(4, maxCap) == 4
    ensures RelocatingPushes(5, maxCap) == 8
  {
  }

  /** The way shrink_to_fit ends. */
  datatype ShrinkPath =
    | AlreadyFit                       // size == capacity: nothing happens
    | ShrunkInPlace(capacity: nat)     // the allocator shrank the block
    | RelocatedToFit                   // moved to a fresh block of exactly size slots

  /**
   The path shrink_to_fit takes with `size` live elements in `cap` slots, when
   the allocator would answer `answer` to shrink_by(cap - size).
   */
  function ShrinkToFitPath(alloc: Capability, cap: nat, size: nat, answer: Reply): (p: ShrinkPath)
    requires size <= cap
    requires size < cap ==> ShrinkRule(cap, cap - size, answer)
    ensures p.AlreadyFit? <==> size == cap
    ensures p.ShrunkInPlace? <==> size < cap && alloc.hasShrinkBy && answer.ok
    ensures p.ShrunkInPlace? ==> p.capacity == answer.size && size <= p.capacity < cap
    ensures !alloc.hasShrinkBy ==> !p.ShrunkInPlace?
  {
    if size == cap then AlreadyFit
    else
      var shrunk := ShrinkBy(alloc, cap, cap - size, answer);
      if shrunk.ok then ShrunkInPlace(shrunk.size) else RelocatedToFit
  }

  /** The capacity shrink_to_fit leaves. */
  function ShrunkCapacity(p: ShrinkPath, cap: nat, size: nat): nat
  {
    match p
    case AlreadyFit => cap
    case ShrunkInPlace(c) => c
    case RelocatedToFit => size
  }

  /**
   shrink_to_fit never loses room for the live elements and never grows; an
   allocator without shrink_by always ends with capacity == size.
   */
  lemma ShrinkToFitBounds(alloc: Capability, cap: nat, size: nat, answer: Reply)
    requires size <= cap
    requires size < cap ==> ShrinkRule(cap, cap - size, answer)
    ensures var c := ShrunkCapacity(ShrinkToFitPath(alloc, cap, size, answer), cap, size);
      size <= c <= cap && (!alloc.hasShrinkBy ==> c == size)
  {
  }

  /**
   A shrink_to_fit that did not shrink in place leaves capacity == size, so the
   next shrink_to_fit, whatever the allocator answers, does nothing.
   */
  lemma ShrinkToFitSettles(alloc: Capability, cap: nat, size: nat, answer: Reply, answer2: Reply)
    requires size <= cap
    requires size < cap ==> ShrinkRule(cap, cap - size, answer)
    requires !ShrinkToFitPath(alloc, cap, size, answer).ShrunkInPlace?
    ensures var c := ShrunkCapacity(ShrinkToFitPath(alloc, cap, size, answer), cap, size);
      c == size && ShrinkToFitPath(alloc, c, size, answer2) == AlreadyFit
  {
  }
}
