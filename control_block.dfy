/** The reference-counting protocol of a control block (class Ref_Count of
    MySmartPtr.h) as a state machine over values: a strong count, a weak count
    and the log of the `_Destroy`/`_Delete` effects the block has run. The
    class SmartPtr.RefCount is proved to follow these transitions; the lemmas
    here say what any admissible sequence of them does. */
module ControlBlock {
  import opened Memory

  /** A control block: its strategy and owned pointer (fixed at construction),
      its two counters, and the effects it has caused so far. */
  datatype Block = Block(strategy: Strategy, ptr: Ptr, use: nat, weak: nat, log: seq<Event>)

  /** The four counter operations. */
  datatype Op = IncUse | DecUse | IncWeak | DecWeak

  /** A freshly constructed block: one strong reference, no weak ones. */
  function Created(s: Strategy, p: Ptr): Block
  {
    Block(s, p, 1, 0, [])
  }

  /** When a handle may apply `op`. A strong increment only comes from a live
      strong handle or from a promotion that found the block unexpired, a
      strong decrement only from a live strong handle, a weak increment only
      while the block still exists, a weak decrement only from a live weak
      handle. */
  predicate Admissible(b: Block, op: Op)
  {
    match op
    case IncUse => b.use > 0
    case DecUse => b.use > 0
    case IncWeak => b.use > 0 || b.weak > 0
    case DecWeak => b.weak > 0
  }

  /** One counter operation: `_Increment`, `_Decrement`, `_Increment_Weak`,
      `_Decrement_Weak`. Each moves its own counter by one and leaves the
      other alone; the strategy and the owned pointer never change; effects
      are only ever appended, never by an increment, and only once the strong
      count is 0. */
  function Step(b: Block, op: Op): (r: Block)
    requires Admissible(b, op)
    ensures r.strategy == b.strategy && r.ptr == b.ptr
    ensures op == IncUse ==> r.use == b.use + 1 && r.weak == b.weak
    ensures op == DecUse ==> r.use == b.use - 1 && r.weak == b.weak
    ensures op == IncWeak ==> r.weak == b.weak + 1 && r.use == b.use
    ensures op == DecWeak ==> r.weak == b.weak - 1 && r.use == b.use
    ensures b.log <= r.log
    ensures op == IncUse || op == IncWeak ==> r.log == b.log
    ensures r.log != b.log ==> r.use == 0
  {
    match op
    case IncUse => b.(use := b.use + 1)
    case DecUse =>
      if b.use - 1 == 0 then
        b.(use := 0,
           log := b.log + [DestroyEvent(b.strategy, b.ptr)]
                        + (if b.weak == 0 then [DeleteEvent(b.strategy)] else []))
      else
        b.(use := b.use - 1)
    case IncWeak => b.(weak := b.weak + 1)
    case DecWeak =>
      if b.use == 0 && b.weak - 1 == 0 then
        b.(weak := 0, log := b.log + [DeleteEvent(b.strategy)])
      else
        b.(weak := b.weak - 1)
  }

  /** The log a block must have, given its counters: the object is destroyed
      exactly when the strong count is 0, and the block freed after that,
      exactly when both counts are 0. */
  function ExpectedLog(b: Block): seq<Event>
  {
    (if b.use == 0 then [DestroyEvent(b.strategy, b.ptr)] else [])
    + (if b.use == 0 && b.weak == 0 then [DeleteEvent(b.strategy)] else [])
  }

  ghost predicate Consistent(b: Block)
  {
    b.log == ExpectedLog(b)
  }

  lemma StepKeepsConsistent(b: Block, op: Op)
    requires Consistent(b) && Admissible(b, op)
    ensures Consistent(Step(b, op))
  {
  }

  /** A strong increment followed by a strong decrement leaves the block as
      it was (the temporary of a self-assignment). */
  lemma IncThenDec(b: Block)
    requires b.use > 0
    ensures Step(Step(b, IncUse), DecUse) == b
  {
  }

  /** A weak increment followed by a weak decrement leaves the block as it
      was (the temporary of a weak self-assignment). */
  lemma IncWeakThenDecWeak(b: Block)
    requires b.use > 0 || b.weak > 0
    ensures Step(Step(b, IncWeak), DecWeak) == b
  {
  }

  /** Releasing a weak reference and taking it again while a strong one is
      held leaves the block as it was: the block cannot be freed in between. */
  lemma DecWeakThenIncWeak(b: Block)
    requires b.use > 0 && b.weak > 0
    ensures Admissible(Step(b, DecWeak), IncWeak)
    ensures Step(Step(b, DecWeak), IncWeak) == b
  {
  }

  /** `ops` can be applied to `b` one after the other. */
  predicate AdmissibleRun(b: Block, ops: seq<Op>)
    decreases |ops|
  {
    ops == [] || (Admissible(b, ops[0]) && AdmissibleRun(Step(b, ops[0]), ops[1..]))
  }

  /** The block after applying `ops` in order; no operation changes which
      object the block owns or how it destroys it. */
  function Run(b: Block, ops: seq<Op>): (r: Block)
    requires AdmissibleRun(b, ops)
    ensures r.strategy == b.strategy && r.ptr == b.ptr
    decreases |ops|
  {
    if ops == [] then b else Run(Step(b, ops[0]), ops[1..])
  }

  /** Number of times `e` occurs in `log`. */
  function Occurrences(log: seq<Event>, e: Event): nat
  {
    if log == [] then 0 else (if log[0] == e then 1 else 0) + Occurrences(log[1..], e)
  }

  /** Number of times `op` occurs in `ops`. */
  function Count(ops: seq<Op>, op: Op): nat
  {
    if ops == [] then 0 else (if ops[0] == op then 1 else 0) + Count(ops[1..], op)
  }

  lemma {:induction false} OccurrencesAppend(a: seq<Event>, c: seq<Event>, e: Event)
    ensures Occurrences(a + c, e) == Occurrences(a, e) + Occurrences(c, e)
  {
    if a == [] {
      assert a + c == c;
    } else {
      assert (a + c)[1..] == a[1..] + c;
      OccurrencesAppend(a[1..], c, e);
    }
  }

  /** Every admissible sequence keeps the log in step with the counters. */
  lemma {:induction false} RunKeepsConsistent(b: Block, ops: seq<Op>)
    requires Consistent(b) && AdmissibleRun(b, ops)
    ensures Consistent(Run(b, ops))
    decreases |ops|
  {
    if ops != [] {
      StepKeepsConsistent(b, ops[0]);
      RunKeepsConsistent(Step(b, ops[0]), ops[1..]);
    }
  }

  /** The counters only move by the operations applied: the strong count is
      the initial one plus the strong increments minus the strong decrements,
      and likewise for the weak count. */
  lemma {:induction false} RunBalance(b: Block, ops: seq<Op>)
    requires AdmissibleRun(b, ops)
    ensures Run(b, ops).use + Count(ops, DecUse) == b.use + Count(ops, IncUse)
    ensures Run(b, ops).weak + Count(ops, DecWeak) == b.weak + Count(ops, IncWeak)
    decreases |ops|
  {
    if ops != [] {
      RunBalance(Step(b, ops[0]), ops[1..]);
    }
  }

  /** Effects are only ever appended: the log before a sequence of operations
      is a prefix of the log after it. */
  lemma {:induction false} LogOnlyGrows(b: Block, ops: seq<Op>)
    requires AdmissibleRun(b, ops)
    ensures b.log <= Run(b, ops).log
    decreases |ops|
  {
    if ops != [] {
      LogOnlyGrows(Step(b, ops[0]), ops[1..]);
    }
  }

  /** Once the strong count is 0 it stays 0, and no further destruction is
      ever run: a destroyed object is never revived or destroyed again. */
  lemma {:induction false} ExpiredIsFinal(b: Block, ops: seq<Op>)
    requires b.use == 0 && AdmissibleRun(b, ops)
    ensures Run(b, ops).use == 0
    ensures Occurrences(Run(b, ops).log, DestroyEvent(b.strategy, b.ptr))
         == Occurrences(b.log, DestroyEvent(b.strategy, b.ptr))
    decreases |ops|
  {
    if ops != [] {
      var e := DestroyEvent(b.strategy, b.ptr);
      var b' := Step(b, ops[0]);
      if b'.log != b.log {
        assert b'.log == b.log + [DeleteEvent(b.strategy)];
        OccurrencesAppend(b.log, [DeleteEvent(b.strategy)], e);
        assert Occurrences([DeleteEvent(b.strategy)], e) == 0;
      }
      ExpiredIsFinal(b', ops[1..]);
    }
  }

  lemma OccurrencesSingleton(x: Event, e: Event)
    ensures Occurrences([x], e) == (if x == e then 1 else 0)
  {
    assert [x][1..] == [];
  }

  lemma ExpectedLogCounts(b: Block)
    ensures Occurrences(ExpectedLog(b), DestroyEvent(b.strategy, b.ptr)) == (if b.use == 0 then 1 else 0)
    ensures Occurrences(ExpectedLog(b), DeleteEvent(b.strategy)) == (if b.use == 0 && b.weak == 0 then 1 else 0)
  {
    var d, f := DestroyEvent(b.strategy, b.ptr), DeleteEvent(b.strategy);
    OccurrencesSingleton(f, d);
    OccurrencesSingleton(f, f);
    OccurrencesSingleton(d, d);
    OccurrencesSingleton(d, f);
    if b.use == 0 && b.weak == 0 {
      OccurrencesAppend([d], [f], d);
      OccurrencesAppend([d], [f], f);
    }
  }

  /** From construction, over any admissible sequence of counter operations:
      the object is destroyed exactly once if the strong count has reached 0
      and never otherwise; the block is freed exactly once if both counts
      have reached 0 and never otherwise; and nothing is freed before the
      object is destroyed. */
  lemma DestroyAndFreeExactlyOnce(s: Strategy, p: Ptr, ops: seq<Op>)
    requires AdmissibleRun(Created(s, p), ops)
    ensures var r := Run(Created(s, p), ops);
      && Occurrences(r.log, DestroyEvent(s, p)) == (if r.use == 0 then 1 else 0)
      && Occurrences(r.log, DeleteEvent(s)) == (if r.use == 0 && r.weak == 0 then 1 else 0)
      && (r.log != [] ==> r.log[0] == DestroyEvent(s, p))
  {
    RunKeepsConsistent(Created(s, p), ops);
    ExpectedLogCounts(Run(Created(s, p), ops));
  }

  /* Re-entry through the owned object's destructor. `_Destroy` runs
     `delete _ptr` or the deleter, and the object's destructor may itself
     release weak handles on the same block: a weak reference to itself, or
     a child's weak back-pointer to the parent being destroyed. `Step` treats
     `_Destroy` as one indivisible effect; the members below model the
     release of the last strong handle when that destructor releases `n`
     weak handles first. */

  /** `n` weak handles released one after the other. Once the strong count
      is 0, the block is freed by the release that drops the weak count to
      0, and by no other. */
  function ReleaseWeak(b: Block, n: nat): (r: Block)
    requires n <= b.weak
    ensures r.strategy == b.strategy && r.ptr == b.ptr && r.use == b.use
    ensures r.weak == b.weak - n
    ensures b.use > 0 ==> r.log == b.log
    ensures b.use == 0 ==>
      r.log == b.log + (if 0 < n == b.weak then [DeleteEvent(b.strategy)] else [])
    decreases n
  {
    if n == 0 then b else ReleaseWeak(Step(b, DecWeak), n - 1)
  }

  /** The release of the last strong handle as MySmartPtr.h:244-251 writes
      it, when destroying the object releases `n` of the weak handles:
      `_Destroy` starts, the nested `_Decrement_Weak` calls run (and free the
      block if they leave no weak handle), and `_Decrement` then reads the
      weak count and frees the block if it is 0, whether or not that already
      happened. The weak count read is the one left in the freed block. */
  function LastReleaseAsWritten(b: Block, n: nat): (r: Block)
    requires b.use == 1 && n <= b.weak
    ensures r.use == 0 && r.weak == b.weak - n
    ensures r.log == b.log + [DestroyEvent(b.strategy, b.ptr)]
      + (if n < b.weak then []
         else if n == 0 then [DeleteEvent(b.strategy)]
         else [DeleteEvent(b.strategy), DeleteEvent(b.strategy)])
  {
    var inner := ReleaseWeak(b.(use := 0, log := b.log + [DestroyEvent(b.strategy, b.ptr)]), n);
    if inner.weak == 0 then inner.(log := inner.log + [DeleteEvent(b.strategy)]) else inner
  }

  /** Without re-entry, the as-written release is the strong decrement step
      of the rest of the model. */
  lemma LastReleaseWithoutReentry(b: Block)
    requires b.use == 1
    ensures LastReleaseAsWritten(b, 0) == Step(b, DecUse)
  {
  }

  /** An object that holds every weak handle on its own block makes the last
      strong release free the block twice, and the log no longer matches the
      counters. */
  lemma SelfObserverFreedTwice(b: Block, n: nat)
    requires Consistent(b) && b.use == 1 && 0 < n == b.weak
    ensures var r := LastReleaseAsWritten(b, n);
      Occurrences(r.log, DeleteEvent(b.strategy)) == 2 && !Consistent(r)
  {
    var d, f := DestroyEvent(b.strategy, b.ptr), DeleteEvent(b.strategy);
    var r := LastReleaseAsWritten(b, n);
    assert r.log == [d] + [f] + [f];
    OccurrencesAppend([d] + [f], [f], f);
    OccurrencesAppend([d], [f], f);
    OccurrencesSingleton(d, f);
    OccurrencesSingleton(f, f);
  }

  /** The evidently intended release: the strong handles together hold one
      weak reference, so while the strong count is above 0 `weak` counts the
      weak handles plus one. `_Decrement` gives that reference back through
      `_Decrement_Weak` after `_Destroy`, so the block is freed in one place
      only: by whichever weak release comes last. */
  function LastReleaseCorrected(b: Block, n: nat): (r: Block)
    requires b.use == 1 && n < b.weak
    ensures r.use == 0 && r.weak == b.weak - n - 1
    ensures r.log == b.log + [DestroyEvent(b.strategy, b.ptr)]
      + (if r.weak == 0 then [DeleteEvent(b.strategy)] else [])
  {
    var inner := ReleaseWeak(b.(use := 0, log := b.log + [DestroyEvent(b.strategy, b.ptr)]), n);
    Step(inner, DecWeak)
  }

  /** With the correction, however many weak handles the object's destructor
      releases, the object is destroyed once and the block is freed once if
      no weak handle is left and never otherwise. */
  lemma CorrectedFreesOnce(b: Block, n: nat)
    requires Consistent(b) && b.use == 1 && n < b.weak
    ensures var r := LastReleaseCorrected(b, n);
      && Consistent(r)
      && Occurrences(r.log, DestroyEvent(b.strategy, b.ptr)) == 1
      && Occurrences(r.log, DeleteEvent(b.strategy)) == (if r.weak == 0 then 1 else 0)
  {
    ExpectedLogCounts(LastReleaseCorrected(b, n));
  }
}
