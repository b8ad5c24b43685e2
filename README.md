# realloc4cpp: in-place resize negotiation, modelled in Dafny

realloc4cpp is a proposal for C++ allocators that can resize an allocation in
place. A growable array then avoids moving its elements whenever the allocator
can satisfy a resize request where the memory already is. This project models
three parts of it in Dafny:

- the extended `allocator_traits`;
- `raw_buffer`, the buffer that owns one allocation;
- `autogrow_array`, the vector built on that buffer.

It then proves what these parts promise.

- `AllocatorTraits` (allocator_traits.h). An allocator type either has
  `expand_by` / `shrink_by` or it does not, and the traits detect this at
  compile time. Here that is a `Capability` value. The allocator's own answer
  (its boolean result and its final in/out `size`) depends on heap state the
  model cannot see. So each resize call takes that answer as a parameter, a
  `Reply`. The only constraint on it is the success rule of the concrete
  allocator in reallocator.h:
  - `ExpandRule`: a success means the allocation really grew (reallocator.h:86).
    The new element count still fits in `size_t` bytes (`bytes / sizeof(T)`,
    reallocator.h:85). There must also be an allocation to grow. Asking
    jemalloc to grow a null pointer is undefined, and an empty array whose
    allocator has `expand_by` does ask.
  - `ShrinkRule`: a success means the allocation really shrank
    (reallocator.h:96), and never below the requested `size - n`.
- `RawBuffers` (realloc4cpp.cpp:11-94).
  - `begin_` is a reference to an allocation object, a `Block`. It is `null`
    for `nullptr`.
  - `end_` is the end of the block's slots. Each slot is raw storage or a
    constructed element.
  - An in-place resize keeps the same `Block` (the same address). A
    relocation uses a fresh one.
  - The two process-wide counters `realloc_attempts` and `successful_reallocs`
    live in one `Counters` object that every buffer shares.
  - `max_capacity()` is `SizeMax / sizeof(T)`, with a 64-bit `size_t`.
- `AutogrowSpec` holds the decisions of `autogrow_array` as functions of its
  state. It covers which slots are live, the path `push_back` and
  `shrink_to_fit` take, the capacity each path leaves, and growth from empty.
- `AutogrowArrays` (realloc4cpp.cpp:97-202) holds the array itself. It is a
  class whose methods are proved against the functions above.
- `Scenarios` holds clients that use only the contracts. They show doubling
  without in-place resize, a relocating `shrink_to_fit` followed by a no-op
  second call, an in-place growth that grants less than preferred,
  `push_back` followed by `pop_back` leaving the elements as they were, and an
  allocation given up by a relocation staying as it was through later calls.

Behaviour kept as the code has it:

- Unlike `std::vector`, relocation never destroys the moved-from elements
  (realloc4cpp.cpp:168-175, 193-200). The old storage is only deallocated when
  `new_buf` is destroyed. `RelocateTo`, `PushBack` and `ShrinkToFit` say so:
  the old block ends up deallocated with its slots untouched, so they still
  hold constructed elements. The array's footprint `Repr` holds only its
  current block, so later calls cannot touch a block it has let go of.
- A buffer of `n` slots records the `n` it asked for (realloc4cpp.cpp:26-27),
  which is what an allocator that does not round up gives.
- For an empty buffer, `additional_capacity(n)` returns `n`. Otherwise it
  returns the current capacity, capped by what remains below `max_capacity`
  (realloc4cpp.cpp:55-56).
- `shrink_to_fit` is not idempotent. An in-place shrink that stops above
  `size()` leaves room that a second call asks for again. A second call is a
  no-op after a call that relocated, or when the array already fits
  (`ShrinkToFitSettles`).
- `pop_back` destroys the wrong slot; see "## Findings".

## Model

| member | source | states |
|---|---|---|
| `AllocatorTraits.ExpandBy` | allocator_traits.h:17-28 | If the allocator has `expand_by`, the result and the updated size are exactly the allocator's. If not, the result is `false` and the size is unchanged. A success implies the capability exists and the allocator succeeded. The allocator's success rule carries over to the result. |
| `AllocatorTraits.ShrinkBy` | allocator_traits.h:30-42 | The same for `shrink_by`: forwarded unchanged if present, otherwise `false` with the size unchanged. The shrink rule carries over. |
| `RawBuffers.AdditionalCapacity` | realloc4cpp.cpp:50-57 | length_error exactly when `n > max - cap`. Otherwise `cap + r <= max`. An empty buffer gets exactly `n`. A non-empty buffer doubles while doubling fits, and otherwise fills up to `max`. The result is at least 1 when `n >= 1`. |
| `RawBuffers.RawBuffer.MaxCapacity` | realloc4cpp.cpp:92 | The largest element count whose byte size fits in `size_t`. |
| `RawBuffers.RawBuffer.Capacity` | realloc4cpp.cpp:93 | 0 without an allocation, and never above `max_capacity()`. |
| `RawBuffers.Counters.constructor` | realloc4cpp.cpp:11 | Both counters start at 0, and successes never exceed attempts. |
| `RawBuffers.RawBuffer.Empty` | realloc4cpp.cpp:23 | The default buffer has no allocation and capacity 0. |
| `RawBuffers.RawBuffer.Allocate` | realloc4cpp.cpp:24-29 | A fresh allocation of exactly `initial_capacity` raw slots. |
| `RawBuffers.RawBuffer.MoveFrom` | realloc4cpp.cpp:30-33 | Takes over the other buffer's allocation and capacity. The moved-from buffer has no allocation and capacity 0. |
| `RawBuffers.RawBuffer.Release` | realloc4cpp.cpp:35-38 | Deallocates the allocation, if any, without touching its slots. |
| `RawBuffers.RawBuffer.ExpandByAtLeast` | realloc4cpp.cpp:58-67 | Attempts always increase by 1. On `true`: same allocation, capacity equals the allocator's size, new raw slots at the end, successes increase by 1. On `false`: slots, capacity and successes are unchanged. |
| `RawBuffers.RawBuffer.ShrinkBy` | realloc4cpp.cpp:68-76 | The same counter rule. On `true`: same allocation, with the tail slots cut off at the allocator's size. On `false`: the buffer is unchanged. |
| `RawBuffers.RawBuffer.Construct` | realloc4cpp.cpp:78-82 | A raw slot becomes a constructed element holding the value. No other slot changes. |
| `RawBuffers.RawBuffer.Destroy` | realloc4cpp.cpp:83 | A constructed slot becomes raw. No other slot changes. |
| `RawBuffers.RawBuffer.Swap` | realloc4cpp.cpp:84-90 | Exchanges the two buffers' allocations and capacities. |
| `AutogrowSpec.PopBackAsWrittenIsUndefined` | realloc4cpp.cpp:145-146 | As written, on any non-empty array `pop_back` leaves `next` at `next - 1`. A full array destroys past the end of the allocation (undefined). Any other array, reading the destroy of raw storage as a no-op (true for a trivially destructible `T`; undefined otherwise), keeps its slots exactly as they were, so the element at the new `next` is still constructed and the live elements no longer form a prefix. |
| `AutogrowSpec.PopBackSlots` | realloc4cpp.cpp:142-147 | Corrected `pop_back`: `next` decreases by 1 and the slot count is unchanged. The live elements are the old ones minus the last, in order. |
| `AutogrowSpec.PushBackPath` | realloc4cpp.cpp:156-177 | Fast path exactly when `size < capacity`. Overflow (length_error) exactly when full at `max_capacity`. In-place growth exactly when full below max and the allocator has `expand_by` and succeeds; the capacity is then the allocator's size, however much less it is than preferred. Otherwise it relocates to `size + additional_capacity(1)`. Any new capacity is above `size` and at most max. |
| `AutogrowSpec.RelocatingPushes` | realloc4cpp.cpp:158-175 | After `k` pushes from empty with a non-expanding allocator, the capacity lies between `k` and `max_capacity`. |
| `AutogrowSpec.RelocatingPushesDouble` | realloc4cpp.cpp:55-56 | Growth by relocation from empty doubles: after `k` pushes the capacity is a power of two in `[k, 2k)`, while `2k <= max`. |
| `AutogrowSpec.RelocatingPushesFromEmpty` | realloc4cpp.cpp:158-175 | Pushes 1 to 5 give capacities 1, 2, 4, 4, 8. |
| `AutogrowSpec.ShrinkToFitPath` | realloc4cpp.cpp:183-202 | No-op exactly when `size == capacity`. In-place shrink exactly when not fitted and the allocator has `shrink_by` and succeeds; the capacity is then between `size` and the old capacity. Otherwise it relocates. Without `shrink_by` it never shrinks in place. |
| `AutogrowSpec.ShrinkToFitBounds` | realloc4cpp.cpp:185-201 | The final capacity lies between `size` and the old capacity. Without `shrink_by` it equals `size`. |
| `AutogrowSpec.ShrinkToFitSettles` | realloc4cpp.cpp:185-200 | After a call that did not shrink in place, `capacity == size`, so the next call is a no-op whatever the allocator answers. |
| `AutogrowArrays.AutogrowArray.Size` | realloc4cpp.cpp:116 | The number of live elements, never above the capacity. |
| `AutogrowArrays.AutogrowArray.Empty` | realloc4cpp.cpp:115 | True exactly when there are no live elements. |
| `AutogrowArrays.AutogrowArray.Capacity` | realloc4cpp.cpp:118 | `size <= capacity <= max_capacity`. |
| `AutogrowArrays.AutogrowArray.Init` | realloc4cpp.cpp:107 | The default array: no elements, capacity 0. |
| `AutogrowArrays.AutogrowArray.WithSize` | realloc4cpp.cpp:127-133 | `initial_size` copies of the value-initialised element, with capacity exactly `initial_size`. |
| `AutogrowArrays.AutogrowArray.RelocateTo` | realloc4cpp.cpp:168-175 | The live elements move, in order, into a fresh allocation of the requested capacity. The counters are unchanged. The old allocation is deallocated with its moved-from elements still constructed. |
| `AutogrowArrays.AutogrowArray.PushBack` | realloc4cpp.cpp:155-180 | On success the elements are the old ones followed by `v`, on every path. The capacity is the one `PushBackPath` gives. The fast path leaves the allocation and the counters alone. In-place growth keeps the allocation and counts one attempt and one success. Relocation uses a fresh allocation and counts one failed attempt. length_error changes nothing. |
| `AutogrowArrays.AutogrowArray.PopBack` | realloc4cpp.cpp:141-147 | Needs a non-empty array. Removes the last element and keeps the others in order. Capacity and allocation are unchanged. The new slots are those of `PopBackSlots`. |
| `AutogrowArrays.AutogrowArray.Clear` | realloc4cpp.cpp:149-153 | Loops the corrected `PopBack` until empty. Capacity, allocation and counters are unchanged. |
| `AutogrowArrays.AutogrowArray.Dispose` | realloc4cpp.cpp:135-139 | The destructor clears (with the corrected `PopBack`), then deallocates the allocation, which by then is all raw slots. |
| `AutogrowArrays.AutogrowArray.ShrinkToFit` | realloc4cpp.cpp:182-202 | The elements are unchanged. The capacity is the one `ShrinkToFitPath` gives. A no-op leaves the allocation and counters alone. An in-place shrink keeps the allocation and counts one attempt and one success. A relocation to exactly `size` slots uses a fresh allocation and counts one failed attempt. |

## Left out

- `rdtsc`, `main` and the timing output (realloc4cpp.cpp:207-273). They are benchmark I/O and a hardware intrinsic.
- reallocator.h. It binds jemalloc and MSVC functions whose behaviour cannot be
  seen here. Only its success rules are kept, as `ExpandRule` and `ShrinkRule`.
- How the allocator chooses its answer. Each call takes the allocator's reply
  as a parameter. `preferred_n` and `least_n` are passed along but constrain
  nothing, because the success rule does not mention them.
- Raw pointers, placement construction and `sizeof(T)` byte arithmetic.
  Storage is a sequence of slots, and `sizeof(T)` is a positive constant per
  buffer.
- A throwing move constructor during relocation (realloc4cpp.cpp:169, 194).
  Moves are modelled as copies that cannot fail. The moved-from slots keep
  their values.
- `bad_alloc`, and requests above `max_capacity()`. Allocation always
  succeeds. `RawBuffers.RawBuffer.Allocate` and
  `AutogrowArrays.AutogrowArray.WithSize` require a capacity of at most
  `max_capacity()`. `raw_buffer`'s constructor does not check this
  (realloc4cpp.cpp:24-29). `std::allocator` throws for a larger request.
  `reallocator` computes `n * sizeof(T)` unchecked (reallocator.h:30, 62), so
  the byte count wraps and the allocation is too small while `end_` is still
  set `n` elements on. The model does not capture that case.
- Rounding up by `allocate_at_least`. The model records the requested count,
  which is what an allocator without rounding (`std::allocator`) gives. With
  an in/out `allocate_at_least(size_type &n)` like reallocator.h:34 and 66,
  the count is updated before `end_` is set at realloc4cpp.cpp:27, so the
  capacity can be larger. The capacities 1, 2, 4 of `RelocatingPushesFromEmpty`
  and relocation to exactly `size()` in `ShrinkToFit` hold only without
  rounding.
- `RawBuffers.RawBuffer.ExpandByAtLeast`: requires that an allocator that
  reports success had an allocation to grow (`ExpandRule` with `block !=
  null`). The first `push_back` on a default-constructed array whose allocator
  has `expand_by` calls `expand_by(nullptr, 0, 1, 1)` (realloc4cpp.cpp:158-161),
  which for the jemalloc allocator becomes `je_xallocx(nullptr, ...)`
  (reallocator.h:80), whose behaviour is undefined. The model assumes the
  allocator refuses, so that push relocates; `AutogrowArrays.AutogrowArray.PushBack`
  inherits the same precondition.
- The `is_always_equal` assertion, `get_allocator`, and allocator equality.
- The `begin()`/`end()` accessors, `max_size()`, and the move assignment
  operator (realloc4cpp.cpp:40). Nothing uses the move assignment, and its
  body has no `return` statement.
- `RawBuffers.Counters.constructor`: `realloc_attempts` and
  `successful_reallocs` are `unsigned long` and would wrap around. Here they
  are unbounded naturals.

## Findings

| source | as written | input that shows it | evidently intended | confidence | as-written member | corrected member |
|---|---|---|---|---|---|---|
| realloc4cpp.cpp:145-146 | `pop_back` destroys the slot at `next`, then decrements `next` | Any non-empty array. When `size() == capacity()` the slot is past the end of the allocation; otherwise it holds no element. The real last element is never destroyed. | Decrement `next`, then destroy the slot it points to | high, not executed | `AutogrowSpec.PopBackSlotsAsWritten` (shown by `AutogrowSpec.PopBackAsWrittenIsUndefined`) | `AutogrowSpec.PopBackSlots` (used by `AutogrowArrays.AutogrowArray.PopBack`, and so by `AutogrowArrays.AutogrowArray.Clear` and `AutogrowArrays.AutogrowArray.Dispose`) |
