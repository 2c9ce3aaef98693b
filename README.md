# Reference-counted smart pointers, modelled in Dafny

This project models the two headers of a small C++ smart-pointer library.

- **MySmartPtr.h** is the complete design. It has these parts:
  - a control block `Ref_Count` holding a strong count and a weak count;
  - three control-block subclasses, which decide how the owned object is destroyed and how the block is freed;
  - the owning handle `MySharedPtr`;
  - the observing handle `MyWeakPtr`;
  - `MyUniquePtr`, a pointer together with its deleter.
- **MySharedPtr.h** is an earlier draft. Its block has only a strong count, and its `MySharedPtr` is partial.

The model is sequential. Pointers, deleters and allocators are plain values. The memory effects the library triggers are recorded as events, not carried out. These effects are:

- `delete p`;
- calling a deleter on `p`;
- `delete this` on a block;
- freeing a block through an allocator.

Modules:

- `Memory` (memory.dfy) holds pointers, deleters and allocators. It also holds the block strategies, one per `Ref_Count` subclass. Finally it holds the effect events: what `_Destroy` and `_Delete` cause for each strategy.
- `ControlBlock` (control_block.dfy) models the counter protocol of `Ref_Count` as a state machine over values. A block value has a strategy, a pointer, two counters and the log of effects run so far. Lemmas over any admissible sequence of counter operations prove two facts:
  - the object is destroyed exactly once, when the strong count reaches 0;
  - the block is freed exactly once, when both counts are 0, and never before the object is destroyed.

  These two facts take `_Destroy` as one indivisible effect. The source does not keep them when the owned object's destructor releases weak handles on its own block. The same module models that path separately, and it is listed under "## Findings".
- `SmartPtr` (smart_ptr.dfy) holds the classes `RefCount`, `SharedPtr` and `WeakPtr` of MySmartPtr.h. Each block carries two ghost sets: the live strong handles that refer to it and the live weak ones. Its invariant ties the counters to these sets, and ties the effect log to the counters.
  - Every block operation is proved to be one step of the `ControlBlock` machine.
  - Every handle operation states which step it causes, on which block, and how the sets of handles change.
  - The assignments are proved case by case: same block or not, and for a move also self-assignment. Every case runs the same body.
- `Unique` (unique_ptr.dfy) holds `MyUniquePtr`. Deleter calls are appended to an `Effects` object.
- `Draft` (draft_shared_ptr.dfy) models MySharedPtr.h as written.
- `Scenarios` (scenarios.dfy) holds short client programs on fresh objects. Their postconditions fix the counts and effects of typical sequences.

## Model

| member | source | states |
|---|---|---|
| Memory.DestroyEvent | MySmartPtr.h:283-344 | `_Destroy` always acts on the block's pointer and never frees the block: the default block deletes it, the deleter blocks call their stored deleter on it |
| Memory.DeleteEvent | MySmartPtr.h:283-344 | `_Delete` frees the block and touches no object: through the stored allocator for the allocator block, by `delete this` otherwise |
| ControlBlock.Step | MySmartPtr.h:240-262 | each counter operation moves its own counter by one and leaves the other alone, keeps strategy and pointer, only appends effects, never on an increment, and only once the strong count is 0 |
| ControlBlock.StepKeepsConsistent | MySmartPtr.h:240-262 | each counter operation keeps the log in step with the counters: destroy logged exactly when the strong count is 0, free exactly when both are 0 |
| ControlBlock.IncThenDec | MySmartPtr.h:240-251 | a strong increment followed by a strong decrement on a live block restores it exactly |
| ControlBlock.IncWeakThenDecWeak | MySmartPtr.h:253-262 | a weak increment followed by a weak decrement on an existing block restores it exactly |
| ControlBlock.DecWeakThenIncWeak | MySmartPtr.h:619-629 | releasing and retaking a weak reference while a strong one is held cannot free the block and restores it exactly |
| ControlBlock.Run | MySmartPtr.h:240-262 | no sequence of counter operations changes the block's strategy or owned pointer |
| ControlBlock.RunKeepsConsistent | MySmartPtr.h:240-262 | every admissible sequence of counter operations keeps the log consistent with the counters |
| ControlBlock.RunBalance | MySmartPtr.h:240-262 | each counter equals its start value plus its increments minus its decrements |
| ControlBlock.LogOnlyGrows | MySmartPtr.h:244-262 | effects are only appended; the earlier log is a prefix of the later one |
| ControlBlock.ExpiredIsFinal | MySmartPtr.h:244-251 | once the strong count is 0 it stays 0 and the object is never destroyed again |
| ControlBlock.DestroyAndFreeExactlyOnce | MySmartPtr.h:244-262 | from a new block, the object is destroyed exactly once iff the strong count is 0; the block is freed exactly once iff both counts are 0; destroy comes first |
| ControlBlock.ReleaseWeak | MySmartPtr.h:257-262 | releasing `n` weak handles lowers the weak count by `n`; once the strong count is 0 the block is freed by the release that leaves no weak handle, and by no other |
| ControlBlock.LastReleaseAsWritten | MySmartPtr.h:244-251 | the last strong release when the object's destructor releases `n` weak handles: destroy, then no free while weak handles remain, one free when there were none, and two frees when the destructor released every weak handle |
| ControlBlock.LastReleaseWithoutReentry | MySmartPtr.h:244-251 | without re-entry the as-written last release is exactly the strong decrement step |
| ControlBlock.SelfObserverFreedTwice | MySmartPtr.h:244-262 | from a consistent block with strong count 1, an object holding every weak handle on its own block makes the block be freed twice, and the log no longer matches the counters |
| ControlBlock.LastReleaseCorrected | MySmartPtr.h:244-262 | with the strong handles holding one shared weak reference, released after destroy, the last strong release destroys once and frees only when no weak handle is left |
| ControlBlock.CorrectedFreesOnce | MySmartPtr.h:244-262 | with the correction, whatever the destructor releases, the log stays consistent: one destroy, and one free exactly when no weak handle is left |
| SmartPtr.RefCount.constructor | MySmartPtr.h:235-238 | a new block has strong count 1, weak count 0, an empty log, and its first strong handle as the only owner |
| SmartPtr.RefCount.Increment | MySmartPtr.h:240-242 | one strong step on a live block, and the new handle joins the owners |
| SmartPtr.RefCount.Decrement | MySmartPtr.h:244-251 | one strong decrement step, so at 0 the object is destroyed and, with no weak handle, the block freed; the handle leaves the owners |
| SmartPtr.RefCount.IncrementWeak | MySmartPtr.h:253-255 | one weak increment step on an existing block; the new weak handle joins the observers |
| SmartPtr.RefCount.DecrementWeak | MySmartPtr.h:257-262 | one weak decrement step: the block is freed only when both counts are then 0 |
| SmartPtr.RefCount.GetUseCount | MySmartPtr.h:264-266 | on a valid block, the number of live strong handles, which is 0 exactly when the object has been destroyed |
| SmartPtr.RefCount.Destroy | MySmartPtr.h:283-344 | appends the destroy effect of the block's strategy, on the pointer recorded in the block |
| SmartPtr.RefCount.Delete | MySmartPtr.h:283-344 | appends the free effect of the block's strategy: `delete this` or deallocation through the allocator |
| SmartPtr.SharedPtr.Empty | MySmartPtr.h:360-370 | both the pointer and the block are null |
| SmartPtr.SharedPtr.FromRaw | MySmartPtr.h:372-377 | stores `p` with a fresh default block owning `p`, strong count 1, weak count 0 |
| SmartPtr.SharedPtr.FromRawAndDeleter | MySmartPtr.h:379-391 | stores `p` with a fresh block that destroys `p` through the deleter, strong count 1 |
| SmartPtr.SharedPtr.FromRawAndAllocator | MySmartPtr.h:393-419 | stores `p` with a fresh block that uses the deleter and frees itself through the allocator |
| SmartPtr.SharedPtr.Copy | MySmartPtr.h:421-434 | shares pointer and block; a non-empty source adds exactly one strong count, an empty one gives an empty handle; other blocks keep their invariant |
| SmartPtr.SharedPtr.FromWeak | MySmartPtr.h:436-448 | empty and no count change if the weak handle has expired, else shares its pair with one more strong count |
| SmartPtr.SharedPtr.Move | MySmartPtr.h:450-463 | takes the pair, leaves the source empty, and the reference passes from source to new handle with no count change |
| SmartPtr.SharedPtr.Alias | MySmartPtr.h:465-471 | stores the given pointer but shares and increments the other handle's block |
| SmartPtr.SharedPtr.Dispose | MySmartPtr.h:473-476 | a non-empty handle causes one strong decrement step and leaves the owners; an empty one does nothing |
| SmartPtr.SharedPtr.Swap | MySmartPtr.h:501-509 | exchanges both fields, changes no counter, and each block's reference passes to the other handle |
| SmartPtr.SharedPtr.SwapBlocks | MySmartPtr.h:501-509 | swap of handles on different blocks: both references pass across, counters unchanged |
| SmartPtr.SharedPtr.TakeFrom | MySmartPtr.h:478-498 | swap with a temporary, then its destructor: this handle takes the temporary's pair and the old reference is released exactly once |
| SmartPtr.SharedPtr.TakeFromSharer | MySmartPtr.h:478-498 | when the temporary shares the block, exactly the temporary's reference is released |
| SmartPtr.SharedPtr.TakeFromOther | MySmartPtr.h:478-498 | when it does not, the temporary's reference moves here and this handle's old one is released |
| SmartPtr.SharedPtr.CopyAssign | MySmartPtr.h:478-487 | takes `other`'s pair; on the same block nothing changes; otherwise the new block gains one count and the old one loses one |
| SmartPtr.SharedPtr.CopyAssignSharer | MySmartPtr.h:478-487 | copy assignment within one block leaves the block exactly as it was |
| SmartPtr.SharedPtr.CopyAssignOther | MySmartPtr.h:478-487 | copy assignment across blocks: one increment on the new block, one decrement on the old |
| SmartPtr.SharedPtr.MoveAssign | MySmartPtr.h:489-498 | self-move changes nothing; else takes the pair and empties `other`; the old reference, or `other`'s on a shared block, is released exactly once |
| SmartPtr.SharedPtr.MoveAssignSelf | MySmartPtr.h:489-498 | a move into itself keeps the pair and leaves the block untouched |
| SmartPtr.SharedPtr.MoveAssignSharer | MySmartPtr.h:489-498 | moving from a handle on the same block releases that handle's reference |
| SmartPtr.SharedPtr.MoveAssignOther | MySmartPtr.h:489-498 | moving across blocks transfers `other`'s reference here and releases this handle's old one |
| SmartPtr.SharedPtr.Reset | MySmartPtr.h:511-513 | the handle becomes empty and its old reference is released exactly once |
| SmartPtr.SharedPtr.ResetTo | MySmartPtr.h:515-518 | the handle owns `p` through a fresh default block; the old reference is released exactly once |
| SmartPtr.SharedPtr.ResetWithDeleter | MySmartPtr.h:520-523 | as `ResetTo`, with a block using the deleter |
| SmartPtr.SharedPtr.ResetWithAllocator | MySmartPtr.h:525-528 | as `ResetTo`, with a block using the deleter and the allocator |
| SmartPtr.SharedPtr.UseCount | MySmartPtr.h:542-546 | 0 for an empty handle, otherwise the number of live strong handles on the block |
| SmartPtr.WeakPtr.Empty | MySmartPtr.h:575-578 | both fields null |
| SmartPtr.WeakPtr.Copy | MySmartPtr.h:580-593 | shares the pair and adds one weak count only; the strong count is untouched |
| SmartPtr.WeakPtr.FromShared | MySmartPtr.h:595-601 | shares the strong handle's pair and adds one weak count only |
| SmartPtr.WeakPtr.Dispose | MySmartPtr.h:603-606 | one weak decrement step (freeing the block only when both counts are 0) or nothing for an empty handle |
| SmartPtr.WeakPtr.Swap | MySmartPtr.h:631-634 | exchanges both fields and changes no counter |
| SmartPtr.WeakPtr.SwapBlocks | MySmartPtr.h:631-634 | swap of weak handles on different blocks: both weak references pass across |
| SmartPtr.WeakPtr.TakeFrom | MySmartPtr.h:608-617 | swap with a temporary, then its destructor: the old weak reference is released exactly once |
| SmartPtr.WeakPtr.TakeFromSharer | MySmartPtr.h:608-617 | when the temporary shares the block, exactly its weak reference is released |
| SmartPtr.WeakPtr.TakeFromOther | MySmartPtr.h:608-617 | otherwise the temporary's weak reference moves here and the old one is released |
| SmartPtr.WeakPtr.CopyAssign | MySmartPtr.h:608-617 | takes `other`'s pair; weak counts move from the old block to the new one, and nothing changes on a shared block |
| SmartPtr.WeakPtr.CopyAssignSharer | MySmartPtr.h:608-617 | weak copy assignment within one block leaves it exactly as it was |
| SmartPtr.WeakPtr.CopyAssignOther | MySmartPtr.h:608-617 | one weak increment on the new block, one weak decrement on the old |
| SmartPtr.WeakPtr.AssignShared | MySmartPtr.h:619-629 | releases the old weak reference, then takes one on `s`'s block; on the same block it is left exactly as it was |
| SmartPtr.WeakPtr.AssignSharedSame | MySmartPtr.h:619-629 | on the block `s` holds, the decrement cannot free it and the block ends unchanged |
| SmartPtr.WeakPtr.AssignSharedOther | MySmartPtr.h:619-629 | across blocks: one weak decrement on the old, one weak increment on the new |
| SmartPtr.WeakPtr.Reset | MySmartPtr.h:636-638 | the handle becomes empty and its weak reference is released exactly once |
| SmartPtr.WeakPtr.UseCount | MySmartPtr.h:640-644 | 0 for an empty handle, otherwise the number of live strong handles on the block |
| SmartPtr.WeakPtr.Expired | MySmartPtr.h:646-648 | true iff no strong handle is left, which is iff the object has been destroyed |
| SmartPtr.WeakPtr.Lock | MySmartPtr.h:650-652 | an expired handle gives an empty handle and no change; otherwise a new strong handle on the block, one more count |
| Unique.UniquePtr.constructor | MySmartPtr.h:668-693 | stores the pointer (null for the default constructor) and the deleter |
| Unique.UniquePtr.Move | MySmartPtr.h:695-712 | takes the pointer through `release()` and the deleter; the source is null; no deleter call |
| Unique.UniquePtr.Dispose | MySmartPtr.h:716-720 | the deleter is called on the pointer only when it is not null |
| Unique.UniquePtr.MoveAssign | MySmartPtr.h:722-746 | one deleter call with the old deleter on the old pointer (on null for a self-move), then `other`'s pointer and deleter; unless it is a self-move, `other` is null |
| Unique.UniquePtr.AssignNull | MySmartPtr.h:728-731 | the deleter is called on the old pointer, then the handle is null |
| Unique.UniquePtr.Release | MySmartPtr.h:766-770 | returns the held pointer and nulls it; no deleter call |
| Unique.UniquePtr.Reset | MySmartPtr.h:772-775 | exactly one deleter call, on the old pointer, even if null or equal to `p`; then `p` is stored |
| Unique.UniquePtr.Swap | MySmartPtr.h:777-780 | exchanges pointers and deleters |
| Draft.RefCount.constructor | MySharedPtr.h:8-11 | a new draft block has count 1 and no effects |
| Draft.RefCount.Increment | MySharedPtr.h:13-15 | adds exactly 1 |
| Draft.RefCount.Decrement | MySharedPtr.h:17-23 | subtracts 1; at 0 destroys the object and then frees the block, with no weak count to wait for |
| Draft.RefCount.GetUseCount | MySharedPtr.h:25-27 | on a valid draft block, 0 exactly when the object has been destroyed and the block freed; otherwise no effect has run |
| Draft.RefCount.Destroy | MySharedPtr.h:44-105 | appends the strategy's destroy effect |
| Draft.RefCount.Delete | MySharedPtr.h:44-105 | appends the strategy's free effect |
| Draft.SharedPtr.Empty | MySharedPtr.h:115-125 | both fields null |
| Draft.SharedPtr.FromRaw | MySharedPtr.h:127-132 | stores `p` and a fresh default block owning the same `p`, count 1 |
| Draft.SharedPtr.FromRawAndDeleter | MySharedPtr.h:134-146 | stores `p` and a fresh block destroying it through the deleter, count 1 |
| Draft.SharedPtr.FromRawAndAllocator | MySharedPtr.h:148-173 | stores `p` and a fresh block using the deleter and the allocator, count 1 |
| Draft.SharedPtr.Copy | MySharedPtr.h:175-184 | shares pointer and block and leaves the count unchanged, as written |
| Draft.SharedPtr.Dispose | MySharedPtr.h:190-192 | needs a non-null live block; one decrement, which at 0 destroys and frees |
| Scenarios.CopySurvivesOriginalDrop | MySmartPtr.h:421-476 | after the original goes the copy still counts 1 and nothing is destroyed; after the copy goes, `p` is deleted and the block freed |
| Scenarios.WeakOutlivesStrong | MySmartPtr.h:595-652 | after the last strong handle goes, the object is destroyed and the weak handle is expired and locks to empty; the block is freed when the weak handle goes |
| Scenarios.AliasKeepsOwnerAlive | MySmartPtr.h:465-476 | the alias returns `q`, keeps the block alive, and its destruction deletes `p`, not `q` |
| Scenarios.AliasToNullIsFalse | MySmartPtr.h:552-554 | an alias storing null tests false while the use count is 2 |
| Scenarios.UseCountTracksHandles | MySmartPtr.h:542-546 | copies add one, weak handles none, moves transfer, destruction removes one |
| Scenarios.ReleaseThenAdopt | MySmartPtr.h:766-770 | a released pointer is deleted once, by the handle that adopts it |
| Scenarios.ResetSamePointerDeletesTwice | MySmartPtr.h:772-775 | `reset` calls the deleter on null and on the pointer it then stores, which the destructor deletes again |
| Scenarios.DraftCopyOutlivesObject | MySharedPtr.h:175-192 | in the draft, destroying the original deletes `p` and frees the block while the copy still shares it |
| Scenarios.DraftEmptyCannotBeDropped | MySharedPtr.h:190-192 | an empty draft handle cannot be destroyed |

## Left out

- Atomicity and concurrency are not modelled; the counters are plain sequential integers. In the source, decrement-then-load is two atomic operations, and promotion checks expiry and then increments (MySmartPtr.h:439-442). Both races are outside a sequential model.
- Unsigned wrap-around of the counters is not modelled. A decrement is only admissible while a handle holds a reference, so the count is above 0.
- Draft.RefCount.Decrement: requires a count above 0; a decrement at 0, which would wrap around, is not modelled.
- `unique()` (MySmartPtr.h:548-550) compares a member function to 1 and does not compile. It is not modelled.
- `MyUniquePtr(nullptr_t)` delegates to a nonexistent constructor. It is modelled by its evident intent: the default constructor.
- The allocator constructors for a null pointer use the undeclared name `_del`. They are modelled by their evident intent: the deleter argument is used.
- The draft's empty `operator=` (MySharedPtr.h:186-188) has no behaviour to model.
- Dereference operators (`*`, `->`) are plain reads with undefined behaviour on an empty handle. They are not modelled.
- Type traits, `enable_if` and element types are compile-time only. Each converting constructor or assignment is modelled by the member of its same-type overload.
- SmartPtr.RefCount.Decrement: `_Destroy` is one indivisible event in the class model and in `ControlBlock.Step`. An owned object whose destructor releases handles on its own block is not modelled there. On that path the source can free the block twice: it is modelled only at the value level, by `ControlBlock.LastReleaseAsWritten` and `ControlBlock.LastReleaseCorrected` (see "## Findings"). Strong handles released from inside the destructor are not modelled at all.
- Real memory operations are recorded as events, not carried out. This covers `delete`, `delete[]`, deleter bodies, and allocator `rebind`, `allocate`, `construct`, `destroy` and `deallocate`. Rebinding the allocator is not modelled, and the block records the allocator it was given.
- Destructors are modelled as explicit `Dispose` calls. C++ scope and lifetime rules are not modelled.
- After a unique-pointer move, the source keeps its deleter value. The effect of `std::forward` on a deleter object is not modelled.
- `get()`, `get_deleter()` and `operator bool` are plain reads. They carry no contract of their own, and `Scenarios.AliasToNullIsFalse` shows what `operator bool` tests.

## Findings

| source | as written | input that shows it | evidently intended | confidence | as-written member | corrected member |
|---|---|---|---|---|---|---|
| MySharedPtr.h:175-184 | the copy constructors share the block without incrementing its count | `a(p)`, copy `b(a)`, destroy `a`: the count drops to 0, `p` is deleted and the block freed while `b` still uses it | a copy increments the count, as MySmartPtr.h:421-434 does | high (not executed) | Draft.SharedPtr.Copy, Scenarios.DraftCopyOutlivesObject | SmartPtr.SharedPtr.Copy |
| MySharedPtr.h:190-192 | the destructor decrements without testing for a block | destroying a default-constructed handle dereferences a null block | test for a block first, as MySmartPtr.h:473-476 does | high (not executed) | Draft.SharedPtr.Dispose, Scenarios.DraftEmptyCannotBeDropped | SmartPtr.SharedPtr.Dispose |
| MySmartPtr.h:244-251 | `_Decrement` reads the weak count after `_Destroy`, whose object destructor may already have released the last weak handle and so freed the block | an object holds the only weak handle to its own block and its last strong handle goes: the nested `_Decrement_Weak` frees the block, then `_Decrement` reads the freed block and frees it again | the block is freed exactly once, for example because the strong handles together hold one weak reference that `_Decrement` releases after `_Destroy` | high (not executed) | ControlBlock.LastReleaseAsWritten, ControlBlock.SelfObserverFreedTwice | ControlBlock.LastReleaseCorrected, ControlBlock.CorrectedFreesOnce |
