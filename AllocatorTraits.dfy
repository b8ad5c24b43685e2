/**
 Model of the extended allocator_traits: the optional in-place resize
 operations an allocator may provide, and the uniform surface the buffer calls.

 Which optional operations an allocator type has is decided statically, by
 overload resolution; here it is a value of type Capability, fixed per
 allocator type.  What the allocator itself answers depends on heap state the
 model cannot see, so the allocator's answer to one call is a parameter
 (a Reply), constrained only by the success rules of the concrete allocator.
 */
module AllocatorTraits {

  /** The optional resize members an allocator type provides. */
  datatype Capability = Capability(hasExpandBy: bool, hasShrinkBy: bool)

  /** An allocator without in-place resize (the standard allocator). */
  const NoResize := Capability(false, false)

  /** An allocator that can grow in place but not shrink. */
  const ExpandOnly := Capability(true, false)

  /** An allocator that provides both operations (the jemalloc-backed one). */
  const ExpandAndShrink := Capability(true, true)

  /**
   What an in-place resize call produces: its boolean result and the final
   value of its in/out `size` argument (element count of the allocation).
   */
  datatype Reply = Reply(ok: bool, size: nat)

  /**
   Success rule of an allocator's expand_by: it reports success only when the
   allocation really grew, and the new element count still fits in size_t
   bytes.  It has nothing to grow when there is no allocation.
   */
  predicate ExpandRule(hasBlock: bool, oldSize: nat, maxCapacity: nat, r: Reply)
  {
    r.ok ==> hasBlock && oldSize < r.size <= maxCapacity
  }

  /**
   Success rule of an allocator's shrink_by(n): it reports success only when
   the allocation really shrank, and never below the requested `oldSize - n`.
   */
  predicate ShrinkRule(oldSize: nat, n: nat, r: Reply)
  {
    r.ok ==> oldSize - n <= r.size < oldSize
  }

  /**
   allocator_traits::expand_by.  `size` is the current element count,
   `preferred` and `least` the requested growth; `answer` is what the
   allocator's own expand_by returns for this request, when it has one.
   */
  function ExpandBy(cap: Capability, size: nat, preferred: nat, least: nat, answer: Reply): (r: Reply)
    // forwarded: the allocator's result and its update of size, unchanged
    ensures cap.hasExpandBy ==> r == answer
    // fallback: false, size left alone
    ensures !cap.hasExpandBy ==> !r.ok && r.size == size
    // the adapter never reports a success the allocator did not report
    ensures r.ok ==> cap.hasExpandBy && answer.ok
    // the adapter keeps the allocator's success rule
    ensures forall hasBlock: bool, maxCapacity: nat ::
      ExpandRule(hasBlock, size, maxCapacity, answer) ==> ExpandRule(hasBlock, size, maxCapacity, r)
  {
    if cap.hasExpandBy then answer else Reply(false, size)
  }

  /**
   allocator_traits::shrink_by: shrink the allocation of `size` elements by
   `n` elements; `answer` is what the allocator's own shrink_by returns.
   */
  function ShrinkBy(cap: Capability, size: nat, n: nat, answer: Reply): (r: Reply)
    ensures cap.hasShrinkBy ==> r == answer
    ensures !cap.hasShrinkBy ==> !r.ok && r.size == size
    ensures r.ok ==> cap.hasShrinkBy && answer.ok
    ensures ShrinkRule(size, n, answer) ==> ShrinkRule(size, n, r)
  {
    if cap.hasShrinkBy then answer else Reply(false, size)
  }
}
