/** Raw pointers, deleters and allocators, and the memory side effects that the
    smart pointers trigger but do not implement themselves: `delete p`, a call
    of a deleter object on a pointer, and freeing a control block with
    `delete this` or through an allocator. The effects are recorded as events;
    what `delete` or a deleter then does to memory is not part of this model. */
module Memory {

  /** A raw pointer: null, or the address of some object. */
  datatype Ptr = Null | Addr(addr: nat)

  /** A deleter object: `default_delete<T>` (runs `delete p`),
      `default_delete<T[]>` (runs `delete[] p`), or a user-supplied one. */
  datatype Deleter = DefaultDelete | DefaultDeleteArray | Custom(id: nat)

  /** A user-supplied allocator object. */
  datatype Allocator = Allocator(id: nat)

  /** How a control block destroys its object and frees itself: one tag per
      concrete control block class (Ref_Count_Default, Ref_Count_Del,
      Ref_Count_Del_Alloc). */
  datatype Strategy =
    | Default
    | WithDeleter(deleter: Deleter)
    | WithDeleterAlloc(deleter: Deleter, alloc: Allocator)

  /** An observable memory effect. */
  datatype Event =
    | DeletePtr(p: Ptr)                  // `delete p`
    | CallDeleter(d: Deleter, p: Ptr)    // `d(p)`
    | DeleteBlock                        // `delete this` on a control block
    | DeallocateBlock(a: Allocator)      // `a.destroy(this); a.deallocate(this, 1)`

  /** The effect of `_Destroy()` of a block with strategy `s` that owns `p`:
      it always acts on `p` and never frees the block; the default block
      deletes `p` itself, the others hand it to their stored deleter. */
  function DestroyEvent(s: Strategy, p: Ptr): (e: Event)
    ensures e.DeletePtr? || e.CallDeleter?
    ensures e.p == p
    ensures e.DeletePtr? <==> s.Default?
    ensures e.CallDeleter? ==> e.d == s.deleter
  {
    match s
    case Default => DeletePtr(p)
    case WithDeleter(d) => CallDeleter(d, p)
    case WithDeleterAlloc(d, _) => CallDeleter(d, p)
  }

  /** The effect of `_Delete()` of a block with strategy `s`: it frees the
      block and touches no object; only a block made with an allocator is
      returned through that allocator, every other one is `delete`d. */
  function DeleteEvent(s: Strategy): (e: Event)
    ensures e.DeleteBlock? || e.DeallocateBlock?
    ensures e.DeallocateBlock? <==> s.WithDeleterAlloc?
    ensures e.DeallocateBlock? ==> e.a == s.alloc
  {
    match s
    case Default => DeleteBlock
    case WithDeleter(_) => DeleteBlock
    case WithDeleterAlloc(_, a) => DeallocateBlock(a)
  }

  /** The effects that code outside a control block causes, in order: here,
      the deleter calls made by a unique pointer. */
  class Effects {
    var events: seq<Event>

    constructor ()
      ensures events == []
    {
      events := [];
    }
  }
}
