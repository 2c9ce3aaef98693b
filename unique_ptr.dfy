/** MyUniquePtr of MySmartPtr.h: the sole owner of a pointer, together with
    the deleter that disposes of it. There is no control block; the only
    effect is a call of the deleter, recorded in an `Effects` object. */
module Unique {
  import opened Memory

  class UniquePtr {
    var ptr: Ptr
    var deleter: Deleter

    /** The default constructor and `MyUniquePtr(p)` (with `d` the
        default-constructed deleter of the deleter type, and `p` null for the
        default constructor), and `MyUniquePtr(p, d)` (both overloads for
        copying or moving `d` in). */
    constructor (p: Ptr, d: Deleter)
      ensures ptr == p && deleter == d
    {
      ptr, deleter := p, d;
    }

    /** Move constructors (both overloads): take `other`'s pointer through
        `release()`, and its deleter. No deleter is called. */
    constructor Move(other: UniquePtr)
      modifies other`ptr
      ensures ptr == old(other.ptr) && deleter == other.deleter
      ensures other.ptr == Null
    {
      var p := other.Release();
      ptr, deleter := p, other.deleter;
    }

    /** Destructor: the deleter is called on the pointer only when it is not
        null. */
    method Dispose(fx: Effects)
      modifies fx
      ensures fx.events == old(fx.events) + (if ptr != Null then [CallDeleter(deleter, ptr)] else [])
    {
      if Get() != Null {
        fx.events := fx.events + [CallDeleter(deleter, ptr)];
      }
    }

    /** `release()`: give up ownership without calling the deleter. */
    method Release() returns (p: Ptr)
      modifies this`ptr
      ensures p == old(ptr) && ptr == Null
    {
      p := ptr;
      ptr := Null;
    }

    /** `reset(p)`, and `reset()` with `p` null: the deleter is called on the
        old pointer whether or not it is null and whether or not it equals
        `p`; then `p` is stored. */
    method Reset(p: Ptr, fx: Effects)
      modifies this`ptr, fx
      ensures ptr == p && deleter == old(deleter)
      ensures fx.events == old(fx.events) + [CallDeleter(deleter, old(ptr))]
    {
      fx.events := fx.events + [CallDeleter(deleter, Get())];
      ptr := p;
    }

    /** Move assignment (both overloads): `reset(other.release())`, then take
        `other`'s deleter. The old pointer goes to the old deleter. A handle
        moved into itself keeps its pointer, and its deleter is called on
        null. */
    method MoveAssign(other: UniquePtr, fx: Effects)
      modifies this, other`ptr, fx
      ensures ptr == old(other.ptr) && deleter == old(other.deleter)
      ensures other != this ==> other.ptr == Null
      ensures fx.events == old(fx.events) + [CallDeleter(old(deleter), if other == this then Null else old(ptr))]
    {
      var p := other.Release();
      Reset(p, fx);
      deleter := other.deleter;
    }

    /** Assignment from `nullptr`: `reset()`. */
    method AssignNull(fx: Effects)
      modifies this`ptr, fx
      ensures ptr == Null && deleter == old(deleter)
      ensures fx.events == old(fx.events) + [CallDeleter(deleter, old(ptr))]
    {
      Reset(Null, fx);
    }

    /** `swap`: exchange pointers and deleters; no deleter is called. */
    method Swap(other: UniquePtr)
      modifies this, other
      ensures ptr == old(other.ptr) && deleter == old(other.deleter)
      ensures other.ptr == old(ptr) && other.deleter == old(deleter)
    {
      ptr, other.ptr := other.ptr, ptr;
      deleter, other.deleter := other.deleter, deleter;
    }

    /** `get()`. */
    function Get(): Ptr
      reads this
    {
      ptr
    }

    /** `get_deleter()` (both overloads). */
    function GetDeleter(): Deleter
      reads this
    {
      deleter
    }

    /** `operator bool`. */
    function IsNonNull(): bool
      reads this
    {
      Get() != Null
    }
  }
}
