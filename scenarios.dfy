/** Short client programs over the handle classes, each run on fresh objects.
    Their postconditions pin down what a sequence of operations does to the
    counts and which effects it causes, for both headers. */
module Scenarios {
  import opened Memory
  import SmartPtr
  import Unique
  import Draft

  /** A copy keeps the object alive after the original handle is destroyed;
      destroying the copy then destroys the object and frees the block. */
  method CopySurvivesOriginalDrop(p: Ptr) returns (count: nat, during: seq<Event>, after: seq<Event>)
    ensures count == 1 && during == []
    ensures after == [DeletePtr(p), DeleteBlock]
  {
    var a := new SmartPtr.SharedPtr.FromRaw(p);
    var b := new SmartPtr.SharedPtr.Copy(a);
    a.Dispose();
    count := b.UseCount();
    during := b.refc.log;
    b.Dispose();
    after := b.refc.log;
  }

  /** A weak handle does not keep the object alive: once the last strong
      handle is gone the object is destroyed, the weak handle reports it as
      expired and `lock` gives an empty handle; the block itself is freed only
      when the weak handle goes too. */
  method WeakOutlivesStrong(p: Ptr) returns (expired: bool, locked: bool, during: seq<Event>, after: seq<Event>)
    ensures expired && !locked
    ensures during == [DeletePtr(p)]
    ensures after == [DeletePtr(p), DeleteBlock]
  {
    var s := new SmartPtr.SharedPtr.FromRaw(p);
    var w := new SmartPtr.WeakPtr.FromShared(s);
    s.Dispose();
    expired := w.Expired();
    var l := w.Lock();
    locked := l.refc != null;
    during := w.refc.log;
    w.Dispose();
    after := w.refc.log;
  }

  /** An aliasing handle points at `q` but keeps `p`'s block alive; when it
      goes, `p` is the pointer that is deleted. */
  method AliasKeepsOwnerAlive(p: Ptr, q: Ptr) returns (got: Ptr, during: seq<Event>, after: seq<Event>)
    ensures got == q && during == []
    ensures after == [DeletePtr(p), DeleteBlock]
  {
    var a := new SmartPtr.SharedPtr.FromRaw(p);
    var b := new SmartPtr.SharedPtr.Alias(a, q);
    a.Dispose();
    got := b.Get();
    during := b.refc.log;
    b.Dispose();
    after := b.refc.log;
  }

  /** `operator bool` tests the stored pointer, not the block: an aliasing
      handle that stores null is false while it still shares ownership. */
  method AliasToNullIsFalse(p: Ptr) returns (nonNull: bool, count: nat)
    ensures !nonNull && count == 2
  {
    var a := new SmartPtr.SharedPtr.FromRaw(p);
    var b := new SmartPtr.SharedPtr.Alias(a, Null);
    nonNull := b.IsNonNull();
    count := b.UseCount();
  }

  /** `use_count` follows the strong handles: a copy adds one, a weak handle
      adds none, a move only transfers, a destroyed handle removes one. */
  method UseCountTracksHandles(p: Ptr) returns (counts: seq<nat>)
    ensures counts == [1, 2, 2, 2, 0, 1]
  {
    var a := new SmartPtr.SharedPtr.FromRaw(p);
    var n1 := a.UseCount();
    var b := new SmartPtr.SharedPtr.Copy(a);
    var n2 := a.UseCount();
    var w := new SmartPtr.WeakPtr.FromShared(a);
    var n3 := w.UseCount();
    var c := new SmartPtr.SharedPtr.Move(b);
    var n4 := a.UseCount();
    var n5 := b.UseCount();
    c.Dispose();
    var n6 := a.UseCount();
    counts := [n1, n2, n3, n4, n5, n6];
  }

  /** A released pointer is no longer deleted by the unique handle that held
      it; it is deleted once, by the handle that adopts it. */
  method ReleaseThenAdopt(p: Ptr, d: Deleter) returns (events: seq<Event>)
    ensures events == (if p != Null then [CallDeleter(d, p)] else [])
  {
    var fx := new Effects();
    var u := new Unique.UniquePtr(p, d);
    var q := u.Release();
    u.Dispose(fx);
    var v := new Unique.UniquePtr(q, d);
    v.Dispose(fx);
    events := fx.events;
  }

  /** `reset` calls the deleter on the old pointer even when it is null, and
      even when it is the pointer being stored, which is then deleted a
      second time by the destructor. */
  method ResetSamePointerDeletesTwice(p: Ptr, d: Deleter) returns (events: seq<Event>)
    ensures events == [CallDeleter(d, Null), CallDeleter(d, p)] + (if p != Null then [CallDeleter(d, p)] else [])
  {
    var fx := new Effects();
    var u := new Unique.UniquePtr(Null, d);
    u.Reset(p, fx);
    u.Reset(u.Get(), fx);
    u.Dispose(fx);
    events := fx.events;
  }

  /** In the draft header a copy does not count: destroying the original
      destroys the object and frees the block while the copy still refers to
      it, and the copy's destructor can then no longer run on a live block. */
  method DraftCopyOutlivesObject(p: Ptr) returns (shared: bool, log: seq<Event>, droppable: bool)
    ensures shared && !droppable
    ensures log == [DeletePtr(p), DeleteBlock]
  {
    var a := new Draft.SharedPtr.FromRaw(p);
    var b := new Draft.SharedPtr.Copy(a);
    a.Dispose();
    shared := b.refc == a.refc;
    log := b.refc.log;
    droppable := b.CanDispose();
  }

  /** In the draft header an empty handle has no block, so its destructor,
      which decrements without a test, cannot run on it. */
  method DraftEmptyCannotBeDropped() returns (droppable: bool)
    ensures !droppable
  {
    var e := new Draft.SharedPtr.Empty();
    droppable := e.CanDispose();
  }
}
