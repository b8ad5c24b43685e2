/**
 Model of raw_buffer: one allocation, described by where it begins and how
 many element slots it spans, that tries to grow or shrink in place through
 the allocator adapter and counts its attempts in two process-wide counters.
 */
module RawBuffers {
  import opened AllocatorTraits

  /** One element slot of an allocation: raw storage, or a constructed element. */
  datatype Slot<T> = Uninit | Live(value: T)

  /** The exceptions of the core. */
  datatype Error = LengthError

  datatype Result<T> = Ok(value: T) | Err(error: Error)

  datatype Outcome = Pass | Fail(error: Error)

  /** `~size_t(0)` on a target with a 64-bit size_t. */
  const SizeMax: nat := 0xFFFF_FFFF_FFFF_FFFF

  /** `sizeof(T)`: never zero. */
  type ElementSize = n: nat | 1 <= n witness 1

  /**
   The growth policy (additional_capacity): with `cap` slots and at most
   `maxCap`, how many slots to add when at least `n` more are needed.
   */
  function AdditionalCapacity(cap: nat, maxCap: nat, n: nat): (r: Result<nat>)
    requires cap <= maxCap
    // length_error exactly when n more slots would not fit
    ensures r.Err? <==> n > maxCap - cap
    ensures r.Err? ==> r.error == LengthError
    // never past the maximum
    ensures r.Ok? ==> n <= maxCap - cap && cap + r.value <= maxCap
    // an empty buffer asks for exactly n
    ensures r.Ok? && cap == 0 ==> r.value == n
    // a non-empty buffer doubles while doubling fits, else takes what remains
    ensures r.Ok? && 0 < cap && 2 * cap <= maxCap ==> cap + r.value == 2 * cap
    ensures r.Ok? && 2 * cap > maxCap ==> cap + r.value == maxCap
    // room for at least one more element whenever one is asked for
    ensures r.Ok? && n >= 1 ==> r.value >= 1
  {
    var remain := maxCap - cap;
    if n > remain then Err(LengthError)
    else Ok(if cap == 0 then Min(n, remain) else Min(cap, remain))
  }

  function Min(a: nat, b: nat): nat
  {
    if a <= b then a else b
  }

  /** The process-wide counters realloc_attempts and successful_reallocs. */
  class Counters {
    var attempts: nat
    var successes: nat

    ghost predicate Valid()
      reads this
    {
      successes <= attempts
    }

    constructor ()
      ensures Valid() && attempts == 0 && successes == 0
    {
      attempts, successes := 0, 0;
    }
  }

  /** One allocation obtained from the allocator: its slots, and whether it is still allocated. */
  class Block<T> {
    var slots: seq<Slot<T>>
    var inUse: bool

    constructor (n: nat)
      ensures slots == seq(n, _ => Uninit) && inUse
    {
      slots := seq(n, _ => Uninit);
      inUse := true;
    }
  }

  class RawBuffer<T> {
    /** What the allocator type can do in place (a type-level property). */
    const alloc: Capability
    /** sizeof(T). */
    const elemSize: ElementSize
    /** The process-wide counters. */
    const stats: Counters
    /** begin_: the allocation, or null for nullptr; end_ is the end of its slots. */
    var block: Block?<T>

    ghost predicate Valid()
      reads this, block
    {
      block != null ==> block.inUse && |block.slots| <= MaxCapacity()
    }

    /** max_capacity(): the largest element count whose size in bytes fits in size_t. */
    function MaxCapacity(): (m: nat)
      ensures m * elemSize <= SizeMax < (m + 1) * elemSize
    {
      SizeMax / elemSize
    }

    /** capacity(): end_ - begin_. */
    function Capacity(): (c: nat)
      reads this, block
      ensures block == null ==> c == 0
      ensures Valid() ==> c <= MaxCapacity()
    {
      if block == null then 0 else |block.slots|
    }

    /** The default constructor: no allocation. */
    constructor Empty(alloc: Capability, elemSize: ElementSize, stats: Counters)
      ensures Valid() && block == null && Capacity() == 0
      ensures this.alloc == alloc && this.elemSize == elemSize && this.stats == stats
    {
      this.alloc, this.elemSize, this.stats := alloc, elemSize, stats;
      block := null;
    }

    /**
     raw_buffer(initial_capacity): exactly initialCapacity raw slots; any
     rounding up by the allocator is not recorded.
     */
    constructor Allocate(alloc: Capability, elemSize: ElementSize, stats: Counters, initialCapacity: nat)
      requires initialCapacity <= SizeMax / elemSize
      ensures Valid() && block != null && fresh(block)
      ensures block.slots == seq(initialCapacity, _ => Uninit) && Capacity() == initialCapacity
      ensures this.alloc == alloc && this.elemSize == elemSize && this.stats == stats
    {
      this.alloc, this.elemSize, this.stats := alloc, elemSize, stats;
      block := new Block(initialCapacity);
    }

    /** The move constructor: takes over o's allocation and leaves o without one. */
    constructor MoveFrom(o: RawBuffer<T>)
      requires o.Valid()
      modifies o
      ensures Valid() && o.Valid()
      ensures block == old(o.block) && o.block == null && o.Capacity() == 0
      ensures Capacity() == old(o.Capacity())
      ensures alloc == o.alloc && elemSize == o.elemSize && stats == o.stats
    {
      alloc, elemSize, stats := o.alloc, o.elemSize, o.stats;
      block := o.block;
      new;
      o.block := null;
    }

    /**
     expand_by_at_least: one attempt to grow in place by `preferred` (at
     least `least`) slots; `answer` is the allocator's reply.
     */
    method ExpandByAtLeast(preferred: nat, least: nat, answer: Reply) returns (ok: bool)
      requires Valid() && stats.Valid()
      requires ExpandRule(block != null, Capacity(), MaxCapacity(), answer)
      modifies block, stats
      ensures Valid() && stats.Valid()
      ensures block == old(block)
      ensures stats.attempts == old(stats.attempts) + 1
      ensures ok == ExpandBy(alloc, old(Capacity()), preferred, least, answer).ok
      ensures ok ==> block != null && Capacity() == answer.size
      ensures ok ==> block.slots == old(block.slots) + seq(answer.size - old(Capacity()), _ => Uninit)
      ensures ok ==> stats.successes == old(stats.successes) + 1
      ensures !ok ==> Capacity() == old(Capacity()) && stats.successes == old(stats.successes)
      ensures !ok && block != null ==> block.slots == old(block.slots)
    {
      stats.attempts := stats.attempts + 1;
      var capacity := Capacity();
      var r := ExpandBy(alloc, capacity, preferred, least, answer);
      if !r.ok {
        return false;
      }
      block.slots := block.slots + seq(r.size - capacity, _ => Uninit);
      stats.successes := stats.successes + 1;
      return true;
    }

    /** shrink_by: one attempt to give back `n` slots in place; `answer` is the allocator's reply. */
    method ShrinkBy(n: nat, answer: Reply) returns (ok: bool)
      requires Valid() && stats.Valid()
      requires n <= Capacity()
      requires ShrinkRule(Capacity(), n, answer)
      modifies block, stats
      ensures Valid() && stats.Valid()
      ensures block == old(block)
      ensures stats.attempts == old(stats.attempts) + 1
      ensures ok == AllocatorTraits.ShrinkBy(alloc, old(Capacity()), n, answer).ok
      ensures ok ==> block != null && Capacity() == answer.size
      ensures ok ==> block.slots == old(block.slots)[..answer.size]
      ensures ok ==> stats.successes == old(stats.successes) + 1
      ensures !ok ==> Capacity() == old(Capacity()) && stats.successes == old(stats.successes)
      ensures !ok && block != null ==> block.slots == old(block.slots)
    {
      stats.attempts := stats.attempts + 1;
      var capacity := Capacity();
      var r := AllocatorTraits.ShrinkBy(alloc, capacity, n, answer);
      if !r.ok {
        return false;
      }
      block.slots := block.slots[..r.size];
      stats.successes := stats.successes + 1;
      return true;
    }

    /** construct: build an element in raw slot i. */
    method Construct(i: nat, v: T)
      requires Valid() && block != null && i < |block.slots| && block.slots[i].Uninit?
      modifies block
      ensures Valid()
      ensures block.slots == old(block.slots)[i := Live(v)]
    {
      block.slots := block.slots[i := Live(v)];
    }

    /** destroy: end the lifetime of the element in slot i. */
    method Destroy(i: nat)
      requires Valid() && block != null && i < |block.slots| && block.slots[i].Live?
      modifies block
      ensures Valid()
      ensures block.slots == old(block.slots)[i := Uninit]
    {
      block.slots := block.slots[i := Uninit];
    }

    /** swap: exchange allocations with o. */
    method Swap(o: RawBuffer<T>)
      requires Valid() && o.Valid()
      // the same raw_buffer<T, Allocator> type: same allocator capability, element size and counters
      requires o.alloc == alloc && o.elemSize == elemSize && o.stats == stats
      modifies this, o
      ensures Valid() && o.Valid()
      ensures block == old(o.block) && o.block == old(block)
      ensures Capacity() == old(o.Capacity()) && o.Capacity() == old(Capacity())
    {
      block, o.block := o.block, block;
    }

    /** The destructor: give the allocation back, whatever its slots still hold. */
    method Release()
      requires Valid()
      modifies block
      ensures block == old(block)
      ensures block != null ==> !block.inUse && block.slots == old(block.slots)
    {
      if block != null {
        block.inUse := false;
      }
    }
  }
}
