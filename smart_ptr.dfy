/** The complete smart-pointer design of MySmartPtr.h: the control block
    (Ref_Count and its three strategy subclasses), the owning handle
    MySharedPtr and the observing handle MyWeakPtr, run one operation at a
    time. The handle types read each other's fields (they are friends in the
    source), so they share this module.

    Ghost bookkeeping: every control block keeps the set of live strong
    handles (`owners`) and of live weak handles (`observers`) that refer to
    it; a handle joins when it is constructed or assigned and leaves when it
    is destroyed or reassigned. The block invariant ties the counters to
    those sets, so `use` is always the number of live strong handles sharing
    the block and `weak` the number of live weak ones.

    The copy and move constructors and the destructors, which every
    assignment and reset is built from, also state that every other block
    keeps its invariant. That follows from their frames, but stating it
    keeps the proofs of the assignments within the solver's resource bound.

    The assignments are proved case by case (same block or not, and for a
    move also self-assignment); every case runs the same body. */
module SmartPtr {
  import opened Memory
  import opened ControlBlock

  /** Set fact for a reference taken by a fresh temporary `t` and passed
      on to `b`; kept to keep the copy-assignment proofs cheap and stable. */
  lemma TakeOver<T>(s: set<T>, t: T, b: T)
    requires t !in s
    ensures s + {t} - {t} + {b} == s + {b}
  {
  }

  /** The control block: Ref_Count, with the strategy subclass as a tag. */
  class RefCount {
    var use: nat
    var weak: nat
    var log: seq<Event>
    const strategy: Strategy
    const ptr: Ptr   // the pointer `_Destroy` acts on; a handle's own pointer may differ
    ghost var owners: set<SharedPtr>
    ghost var observers: set<WeakPtr>

    function State(): Block
      reads this
    {
      Block(strategy, ptr, use, weak, log)
    }

    ghost predicate Valid()
      reads this, owners, observers
    {
      && use == |owners|
      && weak == |observers|
      && (forall h :: h in owners ==> h.refc == this)
      && (forall w :: w in observers ==> w.refc == this)
      && Consistent(State())
    }

    /** `Ref_Count()`: a new block starts with one strong reference, held by
        `first`, and no weak ones. */
    constructor (p: Ptr, s: Strategy, ghost first: SharedPtr)
      ensures State() == Created(s, p)
      ensures owners == {first} && observers == {}
    {
      use, weak, log := 1, 0, [];
      strategy, ptr := s, p;
      owners, observers := {first}, {};
    }

    /** The block after the method gained `h` as a strong handle. */
    twostate predicate OwnerAdded(new h: SharedPtr)
      reads this, owners, observers
    {
      && old(use) > 0
      && State() == Step(old(State()), IncUse)
      && owners == old(owners) + {h} && observers == old(observers)
      && Valid()
    }

    /** The block after the method lost strong handle `h`. */
    twostate predicate OwnerDropped(h: SharedPtr)
      reads this, owners, observers
    {
      && old(use) > 0
      && State() == Step(old(State()), DecUse)
      && owners == old(owners) - {h} && observers == old(observers)
      && Valid()
    }

    /** The strong reference of `from` now belongs to `to`; no counter moved. */
    twostate predicate OwnerMoved(from: SharedPtr, new to: SharedPtr)
      reads this, owners, observers
    {
      && State() == old(State())
      && owners == old(owners) - {from} + {to} && observers == old(observers)
      && Valid()
    }

    twostate predicate ObserverAdded(new w: WeakPtr)
      reads this, owners, observers
    {
      && (old(use) > 0 || old(weak) > 0)
      && State() == Step(old(State()), IncWeak)
      && observers == old(observers) + {w} && owners == old(owners)
      && Valid()
    }

    twostate predicate ObserverDropped(w: WeakPtr)
      reads this, owners, observers
    {
      && old(weak) > 0
      && State() == Step(old(State()), DecWeak)
      && observers == old(observers) - {w} && owners == old(owners)
      && Valid()
    }

    twostate predicate ObserverMoved(from: WeakPtr, new to: WeakPtr)
      reads this, owners, observers
    {
      && State() == old(State())
      && observers == old(observers) - {from} + {to} && owners == old(owners)
      && Valid()
    }

    /** The block ends as it began: same counters, log and handle sets. */
    twostate predicate Untouched()
      reads this
    {
      && State() == old(State())
      && owners == old(owners) && observers == old(observers)
    }

    /** Strong handle `from` hands its reference over to `to`, which the
        caller has already pointed at this block (a move or a swap). */
    ghost method MoveOwner(from: SharedPtr, to: SharedPtr)
      requires from in owners && to !in owners && to.refc == this
      requires use == |owners| && weak == |observers| && Consistent(State())
      requires forall h :: h in owners && h != from ==> h.refc == this
      requires forall w :: w in observers ==> w.refc == this
      modifies this`owners
      ensures OwnerMoved(from, to)
    {
      owners := owners - {from} + {to};
    }

    /** Weak handle `from` hands its reference over to `to`. */
    ghost method MoveObserver(from: WeakPtr, to: WeakPtr)
      requires from in observers && to !in observers && to.refc == this
      requires use == |owners| && weak == |observers| && Consistent(State())
      requires forall h :: h in owners ==> h.refc == this
      requires forall w :: w in observers && w != from ==> w.refc == this
      modifies this`observers
      ensures ObserverMoved(from, to)
    {
      observers := observers - {from} + {to};
    }

    /** `_Increment`. The caller is a new strong handle `h` made from a live
        one (so the count is not 0). */
    method Increment(ghost h: SharedPtr)
      requires Valid() && use > 0
      requires h !in owners && h.refc == this
      modifies this
      ensures OwnerAdded(h)
    {
      use := use + 1;
      owners := owners + {h};
    }

    /** `_Decrement`: the strong handle `h` lets go. Reaching 0 runs
        `_Destroy`, then `_Delete` if no weak handle remains. */
    method Decrement(ghost h: SharedPtr)
      requires Valid() && h in owners
      modifies this
      ensures OwnerDropped(h)
    {
      use := use - 1;
      owners := owners - {h};
      if use == 0 {
        Destroy();
        if weak == 0 {
          Delete();
        }
      }
    }

    /** `_Increment_Weak`, for a new weak handle `w`; the block still exists. */
    method IncrementWeak(ghost w: WeakPtr)
      requires Valid() && (use > 0 || weak > 0)
      requires w !in observers && w.refc == this
      modifies this
      ensures ObserverAdded(w)
    {
      weak := weak + 1;
      observers := observers + {w};
    }

    /** `_Decrement_Weak`: frees the block when this was the last weak
        handle and the strong count is already 0. */
    method DecrementWeak(ghost w: WeakPtr)
      requires Valid() && w in observers
      modifies this
      ensures ObserverDropped(w)
    {
      weak := weak - 1;
      observers := observers - {w};
      if use == 0 && weak == 0 {
        Delete();
      }
    }

    /** `_Get_Use_Count`: on a valid block, the number of live strong
        handles, which is 0 exactly when the object has been destroyed. */
    function GetUseCount(): (n: nat)
      reads this, owners, observers
      ensures Valid() ==> n == |owners|
      ensures Valid() ==> (n == 0 <==> DestroyEvent(strategy, ptr) in log)
    {
      use
    }

    /** `_Destroy` of the three subclasses: `delete _ptr`, or the stored
        deleter called on the stored pointer. */
    method Destroy()
      modifies this`log
      ensures log == old(log) + [DestroyEvent(strategy, ptr)]
    {
      log := log + [DestroyEvent(strategy, ptr)];
    }

    /** `_Delete` of the three subclasses: `delete this`, or destroy and
        deallocate through the stored allocator. */
    method Delete()
      modifies this`log
      ensures log == old(log) + [DeleteEvent(strategy)]
    {
      log := log + [DeleteEvent(strategy)];
    }
  }

  /** MySharedPtr: a pointer and a reference to the control block that
      governs its lifetime (null for an empty handle). */
  class SharedPtr {
    var ptr: Ptr
    var refc: RefCount?

    ghost predicate Valid()
      reads this, refc, (if refc == null then {} else refc.owners),
            (if refc == null then {} else refc.observers)
    {
      refc != null ==> this in refc.owners && refc.Valid()
    }

    /** Default and `nullptr` constructors. */
    constructor Empty()
      ensures Valid() && ptr == Null && refc == null
    {
      ptr, refc := Null, null;
    }

    /** `MySharedPtr(p)`: a fresh default block that deletes `p`. */
    constructor FromRaw(p: Ptr)
      ensures Valid() && ptr == p && refc != null && fresh(refc)
      ensures refc.State() == Created(Default, p)
      ensures refc.owners == {this} && refc.observers == {}
    {
      ptr := p;
      new;
      refc := new RefCount(p, Default, this);
    }

    /** `MySharedPtr(p, d)` and `MySharedPtr(nullptr, d)` (with `p` null). */
    constructor FromRawAndDeleter(p: Ptr, d: Deleter)
      ensures Valid() && ptr == p && refc != null && fresh(refc)
      ensures refc.State() == Created(WithDeleter(d), p)
      ensures refc.owners == {this} && refc.observers == {}
    {
      ptr := p;
      new;
      refc := new RefCount(p, WithDeleter(d), this);
    }

    /** `MySharedPtr(p, d, a)` and `MySharedPtr(nullptr, d, a)`: the block is
        obtained from the allocator `a`. */
    constructor FromRawAndAllocator(p: Ptr, d: Deleter, a: Allocator)
      ensures Valid() && ptr == p && refc != null && fresh(refc)
      ensures refc.State() == Created(WithDeleterAlloc(d, a), p)
      ensures refc.owners == {this} && refc.observers == {}
    {
      ptr := p;
      new;
      refc := new RefCount(p, WithDeleterAlloc(d, a), this);
    }

    /** Copy constructors: share pointer and block, one more strong count. */
    constructor Copy(other: SharedPtr)
      requires other.Valid()
      modifies other.refc
      ensures Valid() && other.Valid()
      ensures ptr == other.ptr && refc == other.refc
      ensures refc != null ==> refc.OwnerAdded(this)
      ensures forall b: RefCount :: old(allocated(b)) && b != refc && old(b.Valid()) ==> b.Valid()
    {
      ptr, refc := other.ptr, other.refc;
      new;
      if refc != null {
        refc.Increment(this);
      }
    }

    /** Aliasing constructor: point at `p` while sharing `other`'s block. */
    constructor Alias(other: SharedPtr, p: Ptr)
      requires other.Valid()
      modifies other.refc
      ensures Valid() && other.Valid()
      ensures ptr == p && refc == other.refc
      ensures refc != null ==> refc.OwnerAdded(this)
    {
      ptr, refc := p, other.refc;
      new;
      if refc != null {
        refc.Increment(this);
      }
    }

    /** Promotion from a weak handle: empty if it has expired, otherwise
        share its pointer and block with one more strong count. */
    constructor FromWeak(w: WeakPtr)
      requires w.Valid()
      modifies w.refc
      ensures Valid() && w.Valid()
      ensures old(w.Expired()) ==> ptr == Null && refc == null
      ensures old(w.Expired()) && w.refc != null ==> unchanged(w.refc)
      ensures !old(w.Expired()) ==> ptr == w.ptr && refc == w.refc && refc != null && refc.OwnerAdded(this)
    {
      var expired := w.Expired();
      if !expired {
        ptr, refc := w.ptr, w.refc;
      } else {
        ptr, refc := Null, null;
      }
      new;
      if !expired {
        refc.Increment(this);
      }
    }

    /** Move constructors: take `other`'s pair and leave it empty. */
    constructor Move(other: SharedPtr)
      requires other.Valid()
      modifies other`ptr, other`refc, other.refc
      ensures Valid() && other.Valid()
      ensures ptr == old(other.ptr) && refc == old(other.refc)
      ensures other.ptr == Null && other.refc == null
      ensures refc != null ==> refc.OwnerMoved(other, this)
      ensures forall b: RefCount :: old(allocated(b)) && b != refc && old(b.Valid()) ==> b.Valid()
    {
      ptr, refc := other.ptr, other.refc;
      new;
      other.ptr, other.refc := Null, null;
      if refc != null {
        refc.MoveOwner(other, this);
      }
    }

    /** Destructor. */
    method Dispose()
      requires Valid()
      modifies refc
      ensures refc != null ==> refc.OwnerDropped(this)
      ensures forall b: RefCount :: old(allocated(b)) && b != refc && old(b.Valid()) ==> b.Valid()
    {
      if refc != null {
        refc.Decrement(this);
      }
    }

    /** `swap`: exchange the pairs field by field; no counter moves. */
    method Swap(other: SharedPtr)
      requires Valid() && other.Valid()
      modifies this`ptr, this`refc, other`ptr, other`refc, refc, other.refc
      ensures Valid() && other.Valid()
      ensures ptr == old(other.ptr) && refc == old(other.refc)
      ensures other.ptr == old(ptr) && other.refc == old(refc)
      ensures old(refc) == old(other.refc) && refc != null ==> unchanged(refc)
      ensures old(refc) != old(other.refc) ==>
        && (old(refc) != null ==> old(refc).OwnerMoved(this, other))
        && (old(other.refc) != null ==> old(other.refc).OwnerMoved(other, this))
    {
      if refc != other.refc {
        SwapBlocks(other);
      } else {
        ptr, other.ptr := other.ptr, ptr;
      }
    }

    /** `swap` of two handles on different blocks: each block's reference
        passes to the other handle. */
    method SwapBlocks(other: SharedPtr)
      requires Valid() && other.Valid() && refc != other.refc
      modifies this`ptr, this`refc, other`ptr, other`refc, refc, other.refc
      ensures Valid() && other.Valid()
      ensures ptr == old(other.ptr) && refc == old(other.refc)
      ensures other.ptr == old(ptr) && other.refc == old(refc)
      ensures old(refc) != null ==> old(refc).OwnerMoved(this, other)
      ensures old(other.refc) != null ==> old(other.refc).OwnerMoved(other, this)
    {
      var mine, theirs := refc, other.refc;
      ptr, other.ptr := other.ptr, ptr;
      refc, other.refc := other.refc, refc;
      if mine != null {
        mine.MoveOwner(this, other);
      }
      if theirs != null {
        theirs.MoveOwner(other, this);
      }
    }

    /** The tail shared by every assignment and reset: `tmp.swap(*this)`
        followed by the destructor of the temporary `tmp`. This handle ends
        with `tmp`'s pair, and the reference it held before is released. */
    method TakeFrom(tmp: SharedPtr)
      requires Valid() && tmp.Valid() && tmp != this
      modifies this`ptr, this`refc, tmp`ptr, tmp`refc, refc, tmp.refc
      ensures Valid()
      ensures ptr == old(tmp.ptr) && refc == old(tmp.refc)
      ensures old(refc) == old(tmp.refc) && refc != null ==> refc.OwnerDropped(tmp)
      ensures old(refc) != old(tmp.refc) ==>
        && (refc != null ==> refc.OwnerMoved(tmp, this))
        && (old(refc) != null ==> old(refc).OwnerDropped(this))
    {
      if refc == tmp.refc {
        TakeFromSharer(tmp);
      } else {
        TakeFromOther(tmp);
      }
    }

    /** TakeFrom when `tmp` shares this handle's block: the swap moves no
        reference, and the temporary's destructor releases one. */
    method TakeFromSharer(tmp: SharedPtr)
      requires Valid() && tmp.Valid() && tmp != this && refc == tmp.refc
      modifies this`ptr, this`refc, tmp`ptr, tmp`refc, refc
      ensures Valid()
      ensures ptr == old(tmp.ptr) && refc == old(refc)
      ensures refc != null ==> refc.OwnerDropped(tmp)
    {
      tmp.Swap(this);
      tmp.Dispose();
    }

    /** TakeFrom when `tmp` holds another block (or none): the swap hands
        `tmp`'s reference to this handle and this handle's to `tmp`, whose
        destructor then releases it. */
    method TakeFromOther(tmp: SharedPtr)
      requires Valid() && tmp.Valid() && refc != tmp.refc
      modifies this`ptr, this`refc, tmp`ptr, tmp`refc, refc, tmp.refc
      ensures Valid()
      ensures ptr == old(tmp.ptr) && refc == old(tmp.refc)
      ensures refc != null ==> refc.OwnerMoved(tmp, this)
      ensures old(refc) != null ==> old(refc).OwnerDropped(this)
    {
      tmp.SwapBlocks(this);
      tmp.Dispose();
    }

    /** Copy assignment (both overloads): copy `other` into a temporary,
        swap it in, and let the temporary's destructor release the old
        reference. Assigning a handle that shares this handle's block
        changes no count. The two cases are proved separately. */
    method CopyAssign(other: SharedPtr)
      requires Valid() && other.Valid()
      modifies this`ptr, this`refc, refc, other.refc
      ensures Valid() && other.Valid()
      ensures ptr == old(other.ptr) && refc == old(other.refc)
      ensures old(refc) == old(other.refc) && refc != null ==> refc.Untouched()
      ensures old(refc) != old(other.refc) ==>
        && (refc != null ==> refc.OwnerAdded(this))
        && (old(refc) != null ==> old(refc).OwnerDropped(this))
    {
      if refc == other.refc {
        CopyAssignSharer(other);
      } else {
        CopyAssignOther(other);
      }
    }

    /** Copy assignment from a handle on the same block (or, like this one,
        on none). */
    method CopyAssignSharer(other: SharedPtr)
      requires Valid() && other.Valid() && refc == other.refc
      modifies this`ptr, this`refc, refc
      ensures Valid() && other.Valid()
      ensures ptr == old(other.ptr) && refc == old(refc)
      ensures refc != null ==> refc.Untouched()
    {
      var tmp := new SharedPtr.Copy(other);
      TakeFromSharer(tmp);
      if refc != null {
        IncThenDec(old(refc.State()));
      }
    }

    /** Copy assignment from a handle on another block (or on none). */
    method CopyAssignOther(other: SharedPtr)
      requires Valid() && other.Valid() && refc != other.refc
      modifies this`ptr, this`refc, refc, other.refc
      ensures Valid() && other.Valid()
      ensures ptr == old(other.ptr) && refc == old(other.refc)
      ensures refc != null ==> refc.OwnerAdded(this)
      ensures old(refc) != null ==> old(refc).OwnerDropped(this)
    {
      ghost var theirs := other.refc;
      var tmp := new SharedPtr.Copy(other);
      TakeFromOther(tmp);
      if theirs != null {
        TakeOver(old(theirs.owners), tmp, this);
      }
    }

    /** Move assignment (both overloads): move `other` into a temporary,
        swap it in, and let the temporary's destructor release the old
        reference. The three cases (self, same block, other block) are
        proved separately. */
    method MoveAssign(other: SharedPtr)
      requires Valid() && other.Valid()
      modifies this`ptr, this`refc, other`ptr, other`refc, refc, other.refc
      ensures Valid() && other.Valid()
      ensures other == this ==> ptr == old(ptr) && refc == old(refc) && (refc != null ==> refc.Untouched())
      ensures other != this ==>
        && ptr == old(other.ptr) && refc == old(other.refc)
        && other.ptr == Null && other.refc == null
      ensures other != this && old(refc) == old(other.refc) && refc != null ==> refc.OwnerDropped(other)
      ensures other != this && old(refc) != old(other.refc) ==>
        && (refc != null ==> refc.OwnerMoved(other, this))
        && (old(refc) != null ==> old(refc).OwnerDropped(this))
    {
      if other == this {
        MoveAssignSelf();
      } else if refc == other.refc {
        MoveAssignSharer(other);
      } else {
        MoveAssignOther(other);
      }
    }

    /** Move assignment of a handle to itself: the pair goes out to the
        temporary and comes back, and nothing is released. */
    method MoveAssignSelf()
      requires Valid()
      modifies this`ptr, this`refc, refc
      ensures Valid() && ptr == old(ptr) && refc == old(refc)
      ensures refc != null ==> refc.Untouched()
    {
      var tmp := new SharedPtr.Move(this);
      TakeFrom(tmp);
    }

    /** Move assignment from another handle on the same block: `other`'s
        reference is the one released. */
    method MoveAssignSharer(other: SharedPtr)
      requires Valid() && other.Valid() && other != this && refc == other.refc
      modifies this`ptr, this`refc, other`ptr, other`refc, refc
      ensures Valid() && other.Valid()
      ensures ptr == old(other.ptr) && refc == old(refc)
      ensures other.ptr == Null && other.refc == null
      ensures refc != null ==> refc.OwnerDropped(other)
    {
      var tmp := new SharedPtr.Move(other);
      TakeFromSharer(tmp);
    }

    /** Move assignment from a handle on another block (or on none):
        `other`'s reference passes to this handle, and this handle's old
        one is released. */
    method MoveAssignOther(other: SharedPtr)
      requires Valid() && other.Valid() && refc != other.refc
      modifies this`ptr, this`refc, other`ptr, other`refc, refc, other.refc
      ensures Valid() && other.Valid()
      ensures ptr == old(other.ptr) && refc == old(other.refc)
      ensures other.ptr == Null && other.refc == null
      ensures refc != null ==> refc.OwnerMoved(other, this)
      ensures old(refc) != null ==> old(refc).OwnerDropped(this)
    {
      var tmp := new SharedPtr.Move(other);
      TakeFromOther(tmp);
    }

    /** `reset()`: swap in an empty handle. */
    method Reset()
      requires Valid()
      modifies this`ptr, this`refc, refc
      ensures Valid() && ptr == Null && refc == null
      ensures old(refc) != null ==> old(refc).OwnerDropped(this)
    {
      var tmp := new SharedPtr.Empty();
      TakeFrom(tmp);
    }

    /** `reset(p)`: swap in a handle owning `p` through a fresh default block. */
    method ResetTo(p: Ptr)
      requires Valid()
      modifies this`ptr, this`refc, refc
      ensures Valid() && ptr == p && refc != null && fresh(refc)
      ensures refc.State() == Created(Default, p)
      ensures refc.owners == {this} && refc.observers == {}
      ensures old(refc) != null ==> old(refc).OwnerDropped(this)
    {
      var tmp := new SharedPtr.FromRaw(p);
      TakeFrom(tmp);
    }

    /** `reset(p, d)`. */
    method ResetWithDeleter(p: Ptr, d: Deleter)
      requires Valid()
      modifies this`ptr, this`refc, refc
      ensures Valid() && ptr == p && refc != null && fresh(refc)
      ensures refc.State() == Created(WithDeleter(d), p)
      ensures refc.owners == {this} && refc.observers == {}
      ensures old(refc) != null ==> old(refc).OwnerDropped(this)
    {
      var tmp := new SharedPtr.FromRawAndDeleter(p, d);
      TakeFrom(tmp);
    }

    /** `reset(p, d, a)`. */
    method ResetWithAllocator(p: Ptr, d: Deleter, a: Allocator)
      requires Valid()
      modifies this`ptr, this`refc, refc
      ensures Valid() && ptr == p && refc != null && fresh(refc)
      ensures refc.State() == Created(WithDeleterAlloc(d, a), p)
      ensures refc.owners == {this} && refc.observers == {}
      ensures old(refc) != null ==> old(refc).OwnerDropped(this)
    {
      var tmp := new SharedPtr.FromRawAndAllocator(p, d, a);
      TakeFrom(tmp);
    }

    /** `get()`. */
    function Get(): Ptr
      reads this
    {
      ptr
    }

    /** `use_count()`: 0 for an empty handle, otherwise the number of live
        strong handles sharing the block, this one among them. */
    function UseCount(): (n: nat)
      reads this, refc, (if refc == null then {} else refc.owners),
            (if refc == null then {} else refc.observers)
      ensures Valid() ==> n == (if refc == null then 0 else |refc.owners|)
      ensures Valid() && refc != null ==> n >= 1
    {
      if refc == null then 0 else refc.GetUseCount()
    }

    /** `operator bool`: tests the pointer, not the block. */
    function IsNonNull(): bool
      reads this
    {
      ptr != Null
    }
  }

  /** MyWeakPtr: the same pair as a strong handle, counted only in the weak
      count. */
  class WeakPtr {
    var ptr: Ptr
    var refc: RefCount?

    ghost predicate Valid()
      reads this, refc, (if refc == null then {} else refc.owners),
            (if refc == null then {} else refc.observers)
    {
      refc != null ==> this in refc.observers && refc.Valid()
    }

    constructor Empty()
      ensures Valid() && ptr == Null && refc == null
    {
      ptr, refc := Null, null;
    }

    /** Copy constructors from a weak handle. */
    constructor Copy(other: WeakPtr)
      requires other.Valid()
      modifies other.refc
      ensures Valid() && other.Valid()
      ensures ptr == other.ptr && refc == other.refc
      ensures refc != null ==> refc.ObserverAdded(this)
      ensures forall b: RefCount :: old(allocated(b)) && b != refc && old(b.Valid()) ==> b.Valid()
    {
      ptr, refc := other.ptr, other.refc;
      new;
      if refc != null {
        refc.IncrementWeak(this);
      }
    }

    /** Construction from a strong handle. */
    constructor FromShared(s: SharedPtr)
      requires s.Valid()
      modifies s.refc
      ensures Valid() && s.Valid()
      ensures ptr == s.ptr && refc == s.refc
      ensures refc != null ==> refc.ObserverAdded(this)
      ensures forall b: RefCount :: old(allocated(b)) && b != refc && old(b.Valid()) ==> b.Valid()
    {
      ptr, refc := s.ptr, s.refc;
      new;
      if refc != null {
        refc.IncrementWeak(this);
      }
    }

    /** Destructor. */
    method Dispose()
      requires Valid()
      modifies refc
      ensures refc != null ==> refc.ObserverDropped(this)
      ensures forall b: RefCount :: old(allocated(b)) && b != refc && old(b.Valid()) ==> b.Valid()
    {
      if refc != null {
        refc.DecrementWeak(this);
      }
    }

    /** `swap`: exchange the pairs field by field; no counter moves. */
    method Swap(other: WeakPtr)
      requires Valid() && other.Valid()
      modifies this`ptr, this`refc, other`ptr, other`refc, refc, other.refc
      ensures Valid() && other.Valid()
      ensures ptr == old(other.ptr) && refc == old(other.refc)
      ensures other.ptr == old(ptr) && other.refc == old(refc)
      ensures old(refc) == old(other.refc) && refc != null ==> unchanged(refc)
      ensures old(refc) != old(other.refc) ==>
        && (old(refc) != null ==> old(refc).ObserverMoved(this, other))
        && (old(other.refc) != null ==> old(other.refc).ObserverMoved(other, this))
    {
      if refc != other.refc {
        SwapBlocks(other);
      } else {
        ptr, other.ptr := other.ptr, ptr;
      }
    }

    /** `swap` of two weak handles on different blocks. */
    method SwapBlocks(other: WeakPtr)
      requires Valid() && other.Valid() && refc != other.refc
      modifies this`ptr, this`refc, other`ptr, other`refc, refc, other.refc
      ensures Valid() && other.Valid()
      ensures ptr == old(other.ptr) && refc == old(other.refc)
      ensures other.ptr == old(ptr) && other.refc == old(refc)
      ensures old(refc) != null ==> old(refc).ObserverMoved(this, other)
      ensures old(other.refc) != null ==> old(other.refc).ObserverMoved(other, this)
    {
      var mine, theirs := refc, other.refc;
      ptr, other.ptr := other.ptr, ptr;
      refc, other.refc := other.refc, refc;
      if mine != null {
        mine.MoveObserver(this, other);
      }
      if theirs != null {
        theirs.MoveObserver(other, this);
      }
    }

    /** `tmp.swap(*this)` followed by the destructor of the temporary `tmp`,
        as in the weak handle's assignment and `reset`. */
    method TakeFrom(tmp: WeakPtr)
      requires Valid() && tmp.Valid() && tmp != this
      modifies this`ptr, this`refc, tmp`ptr, tmp`refc, refc, tmp.refc
      ensures Valid()
      ensures ptr == old(tmp.ptr) && refc == old(tmp.refc)
      ensures old(refc) == old(tmp.refc) && refc != null ==> refc.ObserverDropped(tmp)
      ensures old(refc) != old(tmp.refc) ==>
        && (refc != null ==> refc.ObserverMoved(tmp, this))
        && (old(refc) != null ==> old(refc).ObserverDropped(this))
    {
      if refc == tmp.refc {
        TakeFromSharer(tmp);
      } else {
        TakeFromOther(tmp);
      }
    }

    /** TakeFrom when `tmp` shares this handle's block. */
    method TakeFromSharer(tmp: WeakPtr)
      requires Valid() && tmp.Valid() && tmp != this && refc == tmp.refc
      modifies this`ptr, this`refc, tmp`ptr, tmp`refc, refc
      ensures Valid()
      ensures ptr == old(tmp.ptr) && refc == old(refc)
      ensures refc != null ==> refc.ObserverDropped(tmp)
    {
      tmp.Swap(this);
      tmp.Dispose();
    }

    /** TakeFrom when `tmp` holds another block (or none). */
    method TakeFromOther(tmp: WeakPtr)
      requires Valid() && tmp.Valid() && refc != tmp.refc
      modifies this`ptr, this`refc, tmp`ptr, tmp`refc, refc, tmp.refc
      ensures Valid()
      ensures ptr == old(tmp.ptr) && refc == old(tmp.refc)
      ensures refc != null ==> refc.ObserverMoved(tmp, this)
      ensures old(refc) != null ==> old(refc).ObserverDropped(this)
    {
      tmp.SwapBlocks(this);
      tmp.Dispose();
    }

    /** Assignment from a weak handle (both overloads), by copy and swap.
        Assigning a handle that shares this handle's block changes no
        count. The two cases are proved separately. */
    method CopyAssign(other: WeakPtr)
      requires Valid() && other.Valid()
      modifies this`ptr, this`refc, refc, other.refc
      ensures Valid() && other.Valid()
      ensures ptr == old(other.ptr) && refc == old(other.refc)
      ensures old(refc) == old(other.refc) && refc != null ==> refc.Untouched()
      ensures old(refc) != old(other.refc) ==>
        && (refc != null ==> refc.ObserverAdded(this))
        && (old(refc) != null ==> old(refc).ObserverDropped(this))
    {
      if refc == other.refc {
        CopyAssignSharer(other);
      } else {
        CopyAssignOther(other);
      }
    }

    /** Weak copy assignment from a handle on the same block (or none). */
    method CopyAssignSharer(other: WeakPtr)
      requires Valid() && other.Valid() && refc == other.refc
      modifies this`ptr, this`refc, refc
      ensures Valid() && other.Valid()
      ensures ptr == old(other.ptr) && refc == old(refc)
      ensures refc != null ==> refc.Untouched()
    {
      var tmp := new WeakPtr.Copy(other);
      TakeFromSharer(tmp);
      if refc != null {
        IncWeakThenDecWeak(old(refc.State()));
      }
    }

    /** Weak copy assignment from a handle on another block (or none). */
    method CopyAssignOther(other: WeakPtr)
      requires Valid() && other.Valid() && refc != other.refc
      modifies this`ptr, this`refc, refc, other.refc
      ensures Valid() && other.Valid()
      ensures ptr == old(other.ptr) && refc == old(other.refc)
      ensures refc != null ==> refc.ObserverAdded(this)
      ensures old(refc) != null ==> old(refc).ObserverDropped(this)
    {
      ghost var theirs := other.refc;
      var tmp := new WeakPtr.Copy(other);
      TakeFromOther(tmp);
      if theirs != null {
        TakeOver(old(theirs.observers), tmp, this);
      }
    }

    /** Assignment from a strong handle: release the old weak reference
        first, then take one on `s`'s block. The two cases are proved
        separately. */
    method AssignShared(s: SharedPtr)
      requires Valid() && s.Valid()
      modifies this`ptr, this`refc, refc, s.refc
      ensures Valid() && s.Valid()
      ensures ptr == s.ptr && refc == s.refc
      ensures old(refc) == s.refc && refc != null ==> refc.Untouched()
      ensures old(refc) != s.refc ==>
        && (refc != null ==> refc.ObserverAdded(this))
        && (old(refc) != null ==> old(refc).ObserverDropped(this))
    {
      if refc == s.refc {
        AssignSharedSame(s);
      } else {
        AssignSharedOther(s);
      }
    }

    /** Assignment from a strong handle on this handle's block: the block
        cannot be freed between the two steps, since `s` holds it. */
    method AssignSharedSame(s: SharedPtr)
      requires Valid() && s.Valid() && refc == s.refc
      modifies this`ptr, this`refc, refc
      ensures Valid() && s.Valid()
      ensures ptr == s.ptr && refc == s.refc
      ensures refc != null ==> refc.Untouched()
    {
      if refc != null {
        refc.DecrementWeak(this);
      }
      ptr, refc := s.ptr, s.refc;
      if refc != null {
        refc.IncrementWeak(this);
        DecWeakThenIncWeak(old(refc.State()));
      }
    }

    /** Assignment from a strong handle on another block (or none). */
    method AssignSharedOther(s: SharedPtr)
      requires Valid() && s.Valid() && refc != s.refc
      modifies this`ptr, this`refc, refc, s.refc
      ensures Valid() && s.Valid()
      ensures ptr == s.ptr && refc == s.refc
      ensures refc != null ==> refc.ObserverAdded(this)
      ensures old(refc) != null ==> old(refc).ObserverDropped(this)
    {
      if refc != null {
        refc.DecrementWeak(this);
      }
      ptr, refc := s.ptr, s.refc;
      if refc != null {
        refc.IncrementWeak(this);
      }
    }

    /** `reset()`: swap in an empty weak handle. */
    method Reset()
      requires Valid()
      modifies this`ptr, this`refc, refc
      ensures Valid() && ptr == Null && refc == null
      ensures old(refc) != null ==> old(refc).ObserverDropped(this)
    {
      var tmp := new WeakPtr.Empty();
      TakeFrom(tmp);
    }

    /** `use_count()`: 0 for an empty handle, otherwise the number of live
        strong handles sharing the block. */
    function UseCount(): (n: nat)
      reads this, refc, (if refc == null then {} else refc.owners),
            (if refc == null then {} else refc.observers)
      ensures Valid() ==> n == (if refc == null then 0 else |refc.owners|)
    {
      if refc == null then 0 else refc.GetUseCount()
    }

    /** `expired()`: the handle is empty, or no strong handle sharing its
        block is left, so the object has been destroyed. */
    function Expired(): (r: bool)
      reads this, refc, (if refc == null then {} else refc.owners),
            (if refc == null then {} else refc.observers)
      ensures Valid() ==> (r <==> refc == null || refc.owners == {})
      ensures Valid() && refc != null ==>
        (r <==> DestroyEvent(refc.strategy, refc.ptr) in refc.log)
    {
      UseCount() == 0
    }

    /** `lock()`: the promotion constructor of MySharedPtr. */
    method Lock() returns (s: SharedPtr)
      requires Valid()
      modifies refc
      ensures fresh(s) && s.Valid() && Valid()
      ensures old(Expired()) ==> s.ptr == Null && s.refc == null && (refc != null ==> unchanged(refc))
      ensures !old(Expired()) ==> s.ptr == ptr && s.refc == refc && refc != null && refc.OwnerAdded(s)
    {
      s := new SharedPtr.FromWeak(this);
    }
  }
}
