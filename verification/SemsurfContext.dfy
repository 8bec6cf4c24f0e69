/**
 The locked regions of a semaphore-surface fence context (nvidia-drm-fence.c): the sorted list
 of pending fences, the value of the waiter being kept, and the stored callback.

 `Ctx` is the state under `ctx->lock`; each locked region is a function on it. The class
 `Context` runs the source's loops in place and is proved to compute those functions.
 */
module SemsurfContext {
  import opened Base

  /** A fence of the context; `deadline` is the absolute time at which it times out. */
  datatype Fence = Fence(id: nat, seqno: nat, deadline: nat)

  /** What `ctx->lock` protects. `currentWait` is 0 when no waiter is needed. */
  datatype Ctx = Ctx(pending: seq<Fence>, currentWait: nat, stored: Option<nat>)

  predicate Sorted(p: seq<Fence>) {
    forall i, j :: 0 <= i < j < |p| ==> p[i].seqno <= p[j].seqno
  }

  // The semaphore value

  /** Rebuilds a 64-bit timeline value from a 32-bit semaphore and the largest submitted value,
      in 64-bit arithmetic. */
  function RebuildSeqno(maxSubmitted: nat, sem32: nat): (r: nat)
    requires maxSubmitted < TWO_64 && sem32 < TWO_32
    ensures r < TWO_64
  {
    var m := if maxSubmitted % TWO_32 < sem32 then (maxSubmitted - TWO_32) % TWO_64 else maxSubmitted;
    sem32 + m / TWO_32 * TWO_32
  }

  /** What the context reads: directly from a 64-bit semaphore, rebuilt from a 32-bit one. */
  function CtxSeqno(is32: bool, maxSubmitted: nat, sem: nat): nat
    requires maxSubmitted < TWO_64 && sem < TWO_64
  {
    if is32 then RebuildSeqno(maxSubmitted, sem % TWO_32) else sem
  }

  /** The submitted value is less than 2^32 ahead of the semaphore, counting modulo 2^64. */
  predicate InWindow(maxSubmitted: nat, sem: nat) {
    (maxSubmitted - sem) % TWO_64 < TWO_32
  }

  /** The 32-bit form reads the true value exactly when the submitted value is in the window. */
  lemma RebuildExact(maxSubmitted: nat, sem: nat)
    requires maxSubmitted < TWO_64 && sem < TWO_64
    ensures RebuildSeqno(maxSubmitted, sem % TWO_32) == sem <==> InWindow(maxSubmitted, sem)
  {
    assert (maxSubmitted - sem) % TWO_64
        == if maxSubmitted >= sem then maxSubmitted - sem else maxSubmitted - sem + TWO_64;
    var mh, ml := maxSubmitted / TWO_32, maxSubmitted % TWO_32;
    var th, tl := sem / TWO_32, sem % TWO_32;
    if ml < tl {
      if mh == 0 {
        assert (maxSubmitted - TWO_32) % TWO_64 == maxSubmitted - TWO_32 + TWO_64;
      } else {
        assert (maxSubmitted - TWO_32) / TWO_32 == mh - 1;
      }
    }
  }

  /** Outside the window the rebuilt value is wrong: here the semaphore moves from 5 to 6 between
      the two reads, and the result is far above every submitted value. */
  lemma RebuildOvershoots()
    ensures !InWindow(5, 6)
    ensures RebuildSeqno(5, 6 % TWO_32) == 0xFFFF_FFFF_0000_0006
  {}

  // Adding a fence

  /** A new fence goes before the first fence with a larger number, or at the end. */
  function Insert(p: seq<Fence>, f: Fence): seq<Fence> {
    if p == [] then [f]
    else if p[0].seqno > f.seqno then [f] + p
    else [p[0]] + Insert(p[1..], f)
  }

  lemma {:induction false} InsertAt(p: seq<Fence>, f: Fence, k: nat)
    requires k <= |p|
    requires forall i :: 0 <= i < k ==> p[i].seqno <= f.seqno
    requires k < |p| ==> p[k].seqno > f.seqno
    ensures Insert(p, f) == p[..k] + [f] + p[k..]
  {
    if k > 0 {
      InsertAt(p[1..], f, k - 1);
    }
  }

  /** The position at which a sorted list passes `v`. */
  lemma SplitPoint(p: seq<Fence>, v: nat) returns (k: nat)
    requires Sorted(p)
    ensures k <= |p|
    ensures forall i :: 0 <= i < k ==> p[i].seqno <= v
    ensures forall i :: k <= i < |p| ==> p[i].seqno > v
  {
    k := 0;
    while k < |p| && p[k].seqno <= v
      invariant 0 <= k <= |p|
      invariant forall i :: 0 <= i < k ==> p[i].seqno <= v
    {
      k := k + 1;
    }
  }

  lemma SortedWith(p: seq<Fence>, f: Fence, k: nat)
    requires Sorted(p) && k <= |p|
    requires forall i :: 0 <= i < k ==> p[i].seqno <= f.seqno
    requires forall i :: k <= i < |p| ==> p[i].seqno > f.seqno
    ensures Sorted(p[..k] + [f] + p[k..])
  {
    var r := p[..k] + [f] + p[k..];
    assert forall i :: 0 <= i < |r| ==> r[i] == if i < k then p[i] else if i == k then f else p[i - 1];
  }

  /** Insertion keeps the list sorted. */
  lemma InsertSorted(p: seq<Fence>, f: Fence)
    requires Sorted(p)
    ensures Sorted(Insert(p, f))
  {
    var k := SplitPoint(p, f.seqno);
    InsertAt(p, f, k);
    SortedWith(p, f, k);
  }

  /** Insertion adds the one fence. */
  lemma InsertCount(p: seq<Fence>, f: Fence, x: Fence)
    requires Sorted(p)
    ensures Count(Insert(p, f), x) == Count(p, x) + if f == x then 1 else 0
  {
    var k := SplitPoint(p, f.seqno);
    InsertAt(p, f, k);
    CountConcat(p[..k] + [f], p[k..], x);
    CountAppend(p[..k], f, x);
    CountConcat(p[..k], p[k..], x);
    assert p == p[..k] + p[k..];
  }

  // Processing completed fences

  /** The fences whose value has been reached, in list order. */
  function Reached(p: seq<Fence>, cur: nat): seq<Fence> {
    if p == [] then []
    else if p[0].seqno <= cur then [p[0]] + Reached(p[1..], cur)
    else Reached(p[1..], cur)
  }

  /** The fences whose value is still to come, in list order. */
  function Above(p: seq<Fence>, cur: nat): seq<Fence> {
    if p == [] then []
    else if p[0].seqno > cur then [p[0]] + Above(p[1..], cur)
    else Above(p[1..], cur)
  }

  /** The length of the longest prefix whose deadlines have passed. */
  function ExpiredLen(p: seq<Fence>, now: nat): (k: nat)
    ensures k <= |p|
    ensures forall i :: 0 <= i < k ==> p[i].deadline <= now
    ensures k < |p| ==> p[k].deadline > now
  {
    if p == [] || p[0].deadline > now then 0 else 1 + ExpiredLen(p[1..], now)
  }

  /** In a sorted list the reached fences are a prefix. */
  lemma {:induction false} ReachedPrefix(p: seq<Fence>, cur: nat, k: nat)
    requires k <= |p|
    requires forall i :: 0 <= i < k ==> p[i].seqno <= cur
    requires forall i :: k <= i < |p| ==> p[i].seqno > cur
    ensures Reached(p, cur) == p[..k] && Above(p, cur) == p[k..]
  {
    if p != [] {
      ReachedPrefix(p[1..], cur, if k == 0 then 0 else k - 1);
    }
  }

  lemma SplitSorted(p: seq<Fence>, cur: nat)
    requires Sorted(p)
    ensures Reached(p, cur) + Above(p, cur) == p
    ensures forall f :: f in Reached(p, cur) ==> f.seqno <= cur
    ensures forall f :: f in Above(p, cur) ==> f.seqno > cur
    ensures Sorted(Above(p, cur))
  {
    var k := SplitPoint(p, cur);
    ReachedPrefix(p, cur, k);
    assert p == p[..k] + p[k..];
  }

  /** The outcome of __nv_drm_semsurf_ctx_process_completed's locked region. */
  datatype Outcome = Outcome(ctx: Ctx, finished: seq<Fence>, timedOut: seq<Fence>,
                             newWait: nat, newTimeout: nat)

  /** Reached fences are finished, then the expired prefix of the rest times out. A caller that
      wants to keep a waiter learns the new value to wait for, or 0 when none is needed. */
  function Process(c: Ctx, cur: nat, now: nat, wantWaiter: bool): Outcome {
    var rest := Above(c.pending, cur);
    var k := ExpiredLen(rest, now);
    var left := rest[k..];
    var fin, late := Reached(c.pending, cur), rest[..k];
    if !wantWaiter then Outcome(c.(pending := left), fin, late, 0, 0)
    else if left == [] then Outcome(c.(pending := [], currentWait := 0), fin, late, 0, 0)
    else if left[0].seqno == c.currentWait then Outcome(c.(pending := left), fin, late, 0, 0)
    else Outcome(c.(pending := left, currentWait := left[0].seqno), fin, late,
                 left[0].seqno, left[0].deadline)
  }

  lemma ExpiredPrefix(rest: seq<Fence>, cur: nat, now: nat)
    requires Sorted(rest) && forall f :: f in rest ==> f.seqno > cur
    ensures var k := ExpiredLen(rest, now);
      && rest[..k] + rest[k..] == rest
      && Sorted(rest[k..])
      && (forall f :: f in rest[..k] ==> f.seqno > cur && f.deadline <= now)
      && (rest[k..] != [] ==> rest[k..][0].seqno > cur && rest[k..][0].deadline > now)
  {}

  lemma ProcessFacts(c: Ctx, cur: nat, now: nat, wantWaiter: bool)
    requires Sorted(c.pending)
    ensures var o := Process(c, cur, now, wantWaiter);
      && o.finished + o.timedOut + o.ctx.pending == c.pending
      && Sorted(o.ctx.pending)
      && (forall f :: f in o.finished ==> f.seqno <= cur)
      && (forall f :: f in o.timedOut ==> f.seqno > cur && f.deadline <= now)
      && (o.ctx.pending != [] ==> o.ctx.pending[0].seqno > cur && o.ctx.pending[0].deadline > now)
      && o.ctx.stored == c.stored
  {
    SplitSorted(c.pending, cur);
    var rest := Above(c.pending, cur);
    ExpiredPrefix(rest, cur, now);
    Assoc(Reached(c.pending, cur), rest[..ExpiredLen(rest, now)], rest[ExpiredLen(rest, now)..]);
  }

  /** Afterwards the kept value is the head's number or 0, and a value handed to the caller is
      that number, is new, and is strictly above the sample. */
  lemma ProcessWaiter(c: Ctx, cur: nat, now: nat)
    requires Sorted(c.pending)
    ensures var o := Process(c, cur, now, true);
      && o.ctx.currentWait == (if o.ctx.pending == [] then 0 else o.ctx.pending[0].seqno)
      && (o.newWait != 0 ==>
            cur < o.newWait == o.ctx.currentWait != c.currentWait
            && o.newTimeout == o.ctx.pending[0].deadline)
      && (o.newWait == 0 ==> o.ctx.currentWait == 0 || o.ctx.currentWait == c.currentWait)
  {
    ProcessFacts(c, cur, now, true);
  }

  /** On a 32-bit semaphore whose submitted value is in the window, processing does exactly what
      it does on a 64-bit one. */
  lemma ProcessSameOn32Bit(c: Ctx, maxSubmitted: nat, sem: nat, now: nat, wantWaiter: bool)
    requires maxSubmitted < TWO_64 && sem < TWO_64 && InWindow(maxSubmitted, sem)
    ensures Process(c, CtxSeqno(true, maxSubmitted, sem), now, wantWaiter)
         == Process(c, CtxSeqno(false, maxSubmitted, sem), now, wantWaiter)
  {
    RebuildExact(maxSubmitted, sem);
  }

  // Callbacks

  /** The locked region of a callback that fires: forget it, and the value it was kept for. */
  function CallbackFired(c: Ctx, cb: nat, waitValue: nat): Ctx {
    c.(stored := if c.stored == Some(cb) then None else c.stored,
       currentWait := if c.currentWait == waitValue then 0 else c.currentWait)
  }

  /** The locked region that stores a registered callback, if its value is still wanted. */
  function StoreCallback(c: Ctx, waitValue: nat, cb: nat): Ctx {
    if c.currentWait == waitValue then c.(stored := Some(cb)) else c
  }

  /** The context with its loops run in place. */
  class Context {
    var pending: seq<Fence>
    var currentWait: nat
    var stored: Option<nat>

    function Abs(): Ctx
      reads this
    {
      Ctx(pending, currentWait, stored)
    }

    ghost predicate Valid()
      reads this
    {
      Sorted(pending)
    }

    constructor ()
      ensures Valid() && Abs() == Ctx([], 0, None)
    {
      pending, currentWait, stored := [], 0, None;
    }

    method AddPending(f: Fence)
      requires Valid()
      modifies this
      ensures Valid() && Abs() == old(Abs()).(pending := Insert(old(pending), f))
    {
      var k := 0;
      while k < |pending| && pending[k].seqno <= f.seqno
        invariant 0 <= k <= |pending|
        invariant Abs() == old(Abs())
        invariant forall i :: 0 <= i < k ==> pending[i].seqno <= f.seqno
      {
        k := k + 1;
      }
      InsertAt(pending, f, k);
      InsertSorted(pending, f);
      pending := pending[..k] + [f] + pending[k..];
    }

    /** The locked loop of process_completed, with its early exit at the first fence that is
        neither reached nor expired. The last fence examined is handed back. */
    method DrainCompleted(cur: nat, now: nat)
      returns (finished: seq<Fence>, timedOut: seq<Fence>, fenceSeqno: nat, fenceTimeout: nat)
      requires Valid()
      modifies this`pending
      ensures finished == Reached(old(pending), cur)
      ensures Above(old(pending), cur) == timedOut + pending
      ensures ExpiredLen(timedOut + pending, now) == |timedOut|
      ensures pending != [] ==> fenceSeqno == pending[0].seqno && fenceTimeout == pending[0].deadline
    {
      finished, timedOut, fenceSeqno, fenceTimeout := [], [], 0, 0;
      ghost var all := pending;
      while pending != []
        invariant finished + timedOut + pending == all
        invariant forall f :: f in finished ==> f.seqno <= cur
        invariant forall f :: f in timedOut ==> f.seqno > cur && f.deadline <= now
        decreases |pending|
      {
        var fence := pending[0];
        fenceSeqno, fenceTimeout := fence.seqno, fence.deadline;
        TimedOutBelow(all, finished, timedOut, pending);
        if fenceSeqno <= cur {
          finished := finished + [fence];
        } else if fenceTimeout <= now {
          timedOut := timedOut + [fence];
        } else {
          break;
        }
        pending := pending[1..];
      }
      SplitIsProcess(all, finished, timedOut, pending, cur, now);
    }

    /** __nv_drm_semsurf_ctx_process_completed up to the release of the lock. */
    method ProcessCompleted(cur: nat, now: nat, wantWaiter: bool)
      returns (finished: seq<Fence>, timedOut: seq<Fence>, newWait: nat, newTimeout: nat)
      requires Valid()
      modifies this
      ensures Valid()
      ensures Outcome(Abs(), finished, timedOut, newWait, newTimeout)
           == Process(old(Abs()), cur, now, wantWaiter)
    {
      ProcessFacts(Abs(), cur, now, wantWaiter);
      var fenceSeqno, fenceTimeout;
      finished, timedOut, fenceSeqno, fenceTimeout := DrainCompleted(cur, now);
      if wantWaiter {
        if pending == [] {
          currentWait, fenceSeqno, fenceTimeout := 0, 0, 0;
        } else if fenceSeqno == currentWait {
          fenceSeqno, fenceTimeout := 0, 0;
        } else {
          currentWait := fenceSeqno;
        }
        newWait, newTimeout := fenceSeqno, fenceTimeout;
      } else {
        newWait, newTimeout := 0, 0;
      }
    }

    /** The locked region of __nv_drm_semsurf_ctx_callback. */
    method Fired(cb: nat, waitValue: nat)
      modifies this
      ensures Abs() == CallbackFired(old(Abs()), cb, waitValue)
    {
      if stored == Some(cb) {
        stored := None;
      }
      if currentWait == waitValue {
        currentWait := 0;
      }
    }

    /** The locked region of __nv_drm_semsurf_ctx_store_callback. */
    method Store(waitValue: nat, cb: nat) returns (installed: bool, previous: Option<nat>)
      modifies this
      ensures Abs() == StoreCallback(old(Abs()), waitValue, cb)
      ensures installed == (old(currentWait) == waitValue)
      ensures previous == if installed then old(stored) else None
    {
      installed, previous := false, None;
      if currentWait == waitValue {
        previous := stored;
        stored := Some(cb);
        installed := true;
      }
    }

    /** The loop of force_complete_pending: every pending fence is signalled, head first. */
    method ForceComplete() returns (signalled: seq<Fence>)
      modifies this
      ensures Abs() == old(Abs()).(pending := [])
      ensures signalled == old(pending)
    {
      signalled := [];
      while pending != []
        invariant signalled + pending == old(pending)
        invariant currentWait == old(currentWait) && stored == old(stored)
        decreases |pending|
      {
        signalled := signalled + [pending[0]];
        pending := pending[1..];
      }
    }
  }

  /** What is still in the list is not below what timed out. */
  lemma TimedOutBelow(all: seq<Fence>, finished: seq<Fence>, timedOut: seq<Fence>, left: seq<Fence>)
    requires Sorted(all) && finished + timedOut + left == all && left != []
    ensures timedOut != [] ==> timedOut[0] in timedOut && timedOut[0].seqno <= left[0].seqno
  {
    assert timedOut != [] ==> all[|finished|] == timedOut[0];
    assert all[|finished| + |timedOut|] == left[0];
  }

  /** Everything after the reached fences is above the sample. */
  lemma RestIsAbove(all: seq<Fence>, finished: seq<Fence>, timedOut: seq<Fence>, left: seq<Fence>,
                    cur: nat, i: nat)
    requires Sorted(all) && finished + timedOut + left == all && |finished| <= i < |all|
    requires forall f :: f in timedOut ==> f.seqno > cur
    requires left != [] ==> left[0].seqno > cur
    ensures all[i].seqno > cur
  {
    var k := |finished|;
    if i < k + |timedOut| {
      assert all[i] == timedOut[i - k];
    } else {
      assert all[k + |timedOut|] == left[0];
    }
  }

  /** Any early-exit split of a sorted list is the split that `Process` makes. */
  lemma SplitIsProcess(all: seq<Fence>, finished: seq<Fence>, timedOut: seq<Fence>,
                       left: seq<Fence>, cur: nat, now: nat)
    requires Sorted(all) && finished + timedOut + left == all
    requires forall f :: f in finished ==> f.seqno <= cur
    requires forall f :: f in timedOut ==> f.seqno > cur && f.deadline <= now
    requires left != [] ==> left[0].seqno > cur && left[0].deadline > now
    ensures Reached(all, cur) == finished
    ensures Above(all, cur) == timedOut + left
    ensures ExpiredLen(timedOut + left, now) == |timedOut|
  {
    var k := |finished|;
    var rest := timedOut + left;
    assert all[k..] == rest && all[..k] == finished;
    forall i | k <= i < |all| ensures all[i].seqno > cur {
      RestIsAbove(all, finished, timedOut, left, cur, i);
    }
    assert forall i :: 0 <= i < k ==> all[i] == finished[i] && all[i] in finished;
    ReachedPrefix(all, cur, k);
    assert forall i :: 0 <= i < |timedOut| ==> rest[i] == timedOut[i] && rest[i] in timedOut;
    assert left != [] ==> rest[|timedOut|] == left[0];
  }
}
