/** The earlier draft in MySharedPtr.h: a control block with a strong count
    only, its three strategy subclasses, and a partial MySharedPtr
    (constructors, copy constructors, destructor). It is modelled as
    written, separately from the later design in module SmartPtr. */
module Draft {
  import opened Memory

  /** Ref_Count of the draft, with the strategy subclass as a tag. Having no
      weak count, it runs `_Destroy` and then `_Delete` as soon as the count
      reaches 0. */
  class RefCount {
    var use: nat
    var log: seq<Event>
    const strategy: Strategy
    const ptr: Ptr

    /** Both effects have run exactly when the count is 0, and none before:
        a block whose count is 0 has been freed. */
    ghost predicate Valid()
      reads this
    {
      log == (if use == 0 then [DestroyEvent(strategy, ptr), DeleteEvent(strategy)] else [])
    }

    /** `Ref_Count()`: the count starts at 1. */
    constructor (p: Ptr, s: Strategy)
      ensures Valid() && use == 1 && log == []
      ensures strategy == s && ptr == p
    {
      use, log := 1, [];
      strategy, ptr := s, p;
    }

    /** `_Increment`, on a block that has not been freed. */
    method Increment()
      requires Valid() && use > 0
      modifies this`use
      ensures Valid() && use == old(use) + 1
    {
      use := use + 1;
    }

    /** `_Decrement`, on a block that has not been freed: at 0, destroy the
        object and then free the block, unconditionally. */
    method Decrement()
      requires Valid() && use > 0
      modifies this
      ensures Valid() && use == old(use) - 1
      ensures log == old(log) + (if use == 0 then [DestroyEvent(strategy, ptr), DeleteEvent(strategy)] else [])
    {
      use := use - 1;
      if GetUseCount() == 0 {
        Destroy();
        Delete();
      }
    }

    /** `_Get_Use_Count`: on a valid block, 0 exactly when the object has
        been destroyed and the block freed, and otherwise no effect has run. */
    function GetUseCount(): (n: nat)
      reads this
      ensures Valid() ==> (n == 0 <==> log == [DestroyEvent(strategy, ptr), DeleteEvent(strategy)])
      ensures Valid() ==> (n > 0 <==> log == [])
    {
      use
    }

    /** `_Destroy` of the three subclasses. */
    method Destroy()
      modifies this`log
      ensures log == old(log) + [DestroyEvent(strategy, ptr)]
    {
      log := log + [DestroyEvent(strategy, ptr)];
    }

    /** `_Delete` of the three subclasses. */
    method Delete()
      modifies this`log
      ensures log == old(log) + [DeleteEvent(strategy)]
    {
      log := log + [DeleteEvent(strategy)];
    }
  }

  /** The draft MySharedPtr: a pointer and a block reference. */
  class SharedPtr {
    var ptr: Ptr
    var refc: RefCount?

    /** Default and `nullptr` constructors: both fields null. */
    constructor Empty()
      ensures ptr == Null && refc == null
    {
      ptr, refc := Null, null;
    }

    /** `MySharedPtr(p)`: a fresh default block owning the same `p`. */
    constructor FromRaw(p: Ptr)
      ensures ptr == p && refc != null && fresh(refc) && refc.Valid()
      ensures refc.use == 1 && refc.strategy == Default && refc.ptr == p
    {
      ptr := p;
      refc := new RefCount(p, Default);
    }

    /** `MySharedPtr(p, d)` and `MySharedPtr(nullptr, d)` (with `p` null). */
    constructor FromRawAndDeleter(p: Ptr, d: Deleter)
      ensures ptr == p && refc != null && fresh(refc) && refc.Valid()
      ensures refc.use == 1 && refc.strategy == WithDeleter(d) && refc.ptr == p
    {
      ptr := p;
      refc := new RefCount(p, WithDeleter(d));
    }

    /** `MySharedPtr(p, d, a)` and `MySharedPtr(nullptr, d, a)`: the block
        comes from (a rebound copy of) the allocator `a`. */
    constructor FromRawAndAllocator(p: Ptr, d: Deleter, a: Allocator)
      ensures ptr == p && refc != null && fresh(refc) && refc.Valid()
      ensures refc.use == 1 && refc.strategy == WithDeleterAlloc(d, a) && refc.ptr == p
    {
      ptr := p;
      refc := new RefCount(p, WithDeleterAlloc(d, a));
    }

    /** Copy constructors (both overloads), as written: they share the
        pointer and the block but leave the count alone. */
    constructor Copy(other: SharedPtr)
      ensures ptr == other.ptr && refc == other.refc
    {
      ptr, refc := other.ptr, other.refc;
    }

    /** What the destructor needs in order to be defined: a block, not yet
        freed. */
    predicate CanDispose()
      reads this, refc
    {
      refc != null && refc.use > 0
    }

    /** Destructor, as written: decrement without testing for a block. */
    method Dispose()
      requires CanDispose() && refc.Valid()
      modifies refc
      ensures refc.Valid() && refc.use == old(refc.use) - 1
      ensures refc.log == old(refc.log) + (if refc.use == 0 then [DestroyEvent(refc.strategy, refc.ptr), DeleteEvent(refc.strategy)] else [])
    {
      refc.Decrement();
    }
  }
}
