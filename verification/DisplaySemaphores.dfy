/**
 Display semaphores (nvidia-drm-priv.h, nvidia-drm-modeset.c): a commit turns each plane's in-fence
 into a semaphore taken round-robin from a pool; the semaphore is signalled when the fence is, or
 cancelled when the commit cannot wait for the fence.
 */
module DisplaySemaphores {
  import opened Base

  // Round robin

  /** nv_drm_next_display_semaphore's new cursor. */
  function Advance(count: nat, next: nat): nat {
    if next + 1 >= count then 0 else next + 1
  }

  /** The cursor after `j` picks. */
  function Cursor(count: nat, start: nat, j: nat): nat {
    if j == 0 then start else Advance(count, Cursor(count, start, j - 1))
  }

  lemma {:induction false} CursorIs(count: nat, start: nat, j: nat)
    requires start < count && j <= count
    ensures Cursor(count, start, j) == if start + j < count then start + j else start + j - count
  {
    if j > 0 {
      CursorIs(count, start, j - 1);
    }
  }

  /** From any cursor, `count` successive picks visit every index exactly once, and end where they
      began. */
  lemma PicksVisitAll(count: nat, start: nat, i: nat)
    requires start < count && i < count
    ensures var j := if i >= start then i - start else i + count - start;
      && j < count && Cursor(count, start, j) == i
      && (forall k :: 0 <= k < count && Cursor(count, start, k) == i ==> k == j)
    ensures Cursor(count, start, count) == start
  {
    var j := if i >= start then i - start else i + count - start;
    CursorIs(count, start, j);
    CursorIs(count, start, count);
    forall k | 0 <= k < count && Cursor(count, start, k) == i ensures k == j {
      CursorIs(count, start, k);
    }
  }

  /** The first attempt at or after `j` that NVKMS accepts; `accepts(a, i)` is its answer to
      initialising semaphore `i` in attempt `a`. */
  function FirstAccepted(count: nat, start: nat, accepts: (nat, nat) -> bool, j: nat): (r: Option<nat>)
    requires j <= count
    ensures r.Some? ==> j <= r.value < count && accepts(r.value, Cursor(count, start, r.value))
    ensures forall a :: j <= a < (if r.Some? then r.value else count) ==> !accepts(a, Cursor(count, start, a))
    decreases count - j
  {
    if j == count then None
    else if accepts(j, Cursor(count, start, j)) then Some(j)
    else FirstAccepted(count, start, accepts, j + 1)
  }

  /** The search gives up only after NVKMS has refused every semaphore `i` of the pool, in the one
      attempt that reached it. */
  lemma GivesUpAfterAll(count: nat, start: nat, accepts: (nat, nat) -> bool, i: nat)
    requires start < count && i < count
    requires FirstAccepted(count, start, accepts, 0).None?
    ensures exists a :: 0 <= a < count && Cursor(count, start, a) == i && !accepts(a, i)
  {
    PicksVisitAll(count, start, i);
    var a := if i >= start then i - start else i + count - start;
    assert Cursor(count, start, a) == i;
  }

  // From fences to semaphores

  datatype AddResult = Added | AlreadySignalled | AddFailed

  /** A plane of the commit, with the answers it will get. */
  datatype Plane = Plane(
    cursor: bool, onCrtc: bool, hasFence: bool,
    syncpt: bool,          // the fence was turned into a syncpoint
    postSyncpt: bool,      // a post-syncpoint was requested
    accepts: (nat, nat) -> bool,
    allocates: bool,
    added: AddResult)

  datatype Error = None_ | Einval | Eagain | Enomem | AddError

  /** An initialised semaphore: its index, whether memory for a callback was to be had, and how adding
      the callback to the fence was answered. */
  datatype Use = Use(index: nat, hasMemory: bool, answer: AddResult)

  /** The pool. A use of a semaphore ends by being signalled or cancelled, and until then belongs to an
      outstanding fence callback. */
  datatype Pool = Pool(count: nat, next: nat, uses: seq<Use>, outstanding: set<nat>,
                       signalled: seq<nat>, cancelled: seq<nat>)

  predicate NeedsSemaphore(p: Plane) {
    !p.cursor && p.onCrtc && p.hasFence && !p.syncpt
  }

  /** The body of the loop for one plane. */
  function ConvertPlane(s: Pool, p: Plane): (Pool, Error) {
    if !NeedsSemaphore(p) then (s, None_)
    else if p.postSyncpt then (s, Einval)
    else
      var a := FirstAccepted(s.count, s.next, p.accepts, 0);
      if a.None? then (s.(next := Cursor(s.count, s.next, s.count)), Eagain)
      else
        (Started(s.(next := Cursor(s.count, s.next, a.value + 1)),
                 Use(Cursor(s.count, s.next, a.value), p.allocates, p.added)),
         if !p.allocates then Enomem else if p.added.AddFailed? then AddError else None_)
  }

  /** A semaphore has been initialised, and a callback is attached to the fence, or cannot be. */
  function Started(s: Pool, x: Use): Pool {
    var u := |s.uses|;
    var s' := s.(uses := s.uses + [x]);
    if !x.hasMemory then s'.(cancelled := s.cancelled + [u])
    else
      match x.answer
      case Added => s'.(outstanding := s.outstanding + {u})
      case AlreadySignalled => s'.(signalled := s.signalled + [u])
      case AddFailed => s'.(cancelled := s.cancelled + [u])
  }

  /** __nv_drm_convert_in_fences: planes in order, until one fails. */
  function Convert(s: Pool, active: bool, ps: seq<Plane>): (Pool, Error)
    decreases |ps|
  {
    if !active || ps == [] then (s, None_)
    else
      var (s', e) := ConvertPlane(s, ps[0]);
      if e != None_ then (s', e) else Convert(s', active, ps[1..])
  }

  /** __nv_drm_plane_fence_cb: the fence of use `u` is signalled. */
  function FenceCallback(s: Pool, u: nat): Pool {
    if u in s.outstanding then s.(outstanding := s.outstanding - {u}, signalled := s.signalled + [u])
    else s
  }

  /** Each use is outstanding, signalled or cancelled, exactly one of them and exactly once. */
  predicate UseOk(s: Pool, u: nat) {
    Fate(if u < |s.uses| then Some(s.uses[u]) else None, u in s.outstanding, Count(s.signalled, u),
         Count(s.cancelled, u))
  }

  /** The fate of a use, if it is one: it is outstanding, signalled or cancelled, once. It is cancelled
      exactly if no callback could be attached; if the fence had been signalled already, it is too. */
  predicate Fate(use: Option<Use>, outstanding: bool, signalled: nat, cancelled: nat) {
    && (if outstanding then 1 else 0) + signalled + cancelled == (if use.Some? then 1 else 0)
    && (use.Some? ==> (cancelled == 1 <==> !use.value.hasMemory || use.value.answer.AddFailed?))
    && (use.Some? && use.value.hasMemory && use.value.answer.AlreadySignalled? ==> signalled == 1)
  }

  predicate CursorOk(s: Pool) {
    s.next < s.count || (s.count == 0 && s.next == 0)
  }

  ghost predicate Inv(s: Pool) {
    CursorOk(s) && forall u: nat :: UseOk(s, u)
  }

  lemma {:induction false} CursorStays(count: nat, start: nat, j: nat)
    requires start < count || (count == 0 && start == 0)
    ensures Cursor(count, start, j) < count || (count == 0 && Cursor(count, start, j) == 0)
  {
    if j > 0 {
      CursorStays(count, start, j - 1);
    }
  }

  lemma NewUseOk(s: Pool, x: Use)
    requires UseOk(s, |s.uses|)
    ensures UseOk(Started(s, x), |s.uses|)
  {
    CountAppend(s.signalled, |s.uses|, |s.uses|);
    CountAppend(s.cancelled, |s.uses|, |s.uses|);
  }

  lemma OldUseOk(s: Pool, x: Use, u: nat)
    requires UseOk(s, u) && u != |s.uses|
    ensures UseOk(Started(s, x), u)
  {
    var s' := Started(s, x);
    CountAppend(s.signalled, |s.uses|, u);
    CountAppend(s.cancelled, |s.uses|, u);
    assert Count(s'.signalled, u) == Count(s.signalled, u) && Count(s'.cancelled, u) == Count(s.cancelled, u);
  }

  lemma StartedUseOk(s: Pool, x: Use, u: nat)
    requires UseOk(s, u)
    ensures UseOk(Started(s, x), u)
  {
    if u == |s.uses| {
      NewUseOk(s, x);
    } else {
      OldUseOk(s, x, u);
    }
  }

  lemma ConvertUseOk(s: Pool, p: Plane, u: nat)
    requires UseOk(s, u)
    ensures UseOk(ConvertPlane(s, p).0, u)
  {
    var a := FirstAccepted(s.count, s.next, p.accepts, 0);
    if NeedsSemaphore(p) && !p.postSyncpt && a.Some? {
      StartedUseOk(s.(next := Cursor(s.count, s.next, a.value + 1)),
                   Use(Cursor(s.count, s.next, a.value), p.allocates, p.added), u);
    }
  }

  lemma ConvertPlaneInv(s: Pool, p: Plane)
    requires Inv(s)
    ensures Inv(ConvertPlane(s, p).0)
  {
    var s' := ConvertPlane(s, p).0;
    var a := FirstAccepted(s.count, s.next, p.accepts, 0);
    CursorStays(s.count, s.next, s.count);
    CursorStays(s.count, s.next, if a.Some? then a.value + 1 else 0);
    forall u: nat ensures UseOk(s', u) {
      ConvertUseOk(s, p, u);
    }
  }

  /** NVKMS refuses every semaphore of the pool. */
  ghost predicate AllRefused(s: Pool, p: Plane) {
    forall a :: 0 <= a < s.count ==> !p.accepts(a, Cursor(s.count, s.next, a))
  }

  /** Attempt `a` is the first that NVKMS accepts. */
  ghost predicate FirstTaken(s: Pool, p: Plane, a: nat) {
    && a < s.count && p.accepts(a, Cursor(s.count, s.next, a))
    && forall b :: 0 <= b < a ==> !p.accepts(b, Cursor(s.count, s.next, b))
  }

  /** A cursor plane, a plane of another CRTC, one without a fence and one with a syncpoint need no
      semaphore. What the others are answered. */
  lemma ConvertPlaneAnswer(s: Pool, p: Plane)
    ensures var e := ConvertPlane(s, p).1; var waits := !p.cursor && p.onCrtc && p.hasFence && !p.syncpt;
      && (e.Einval? <==> waits && p.postSyncpt)
      && (e.Eagain? <==> waits && !p.postSyncpt && AllRefused(s, p))
      && (e.Enomem? <==> waits && !p.postSyncpt && !AllRefused(s, p) && !p.allocates)
      && (e.AddError? <==> waits && !p.postSyncpt && !AllRefused(s, p) && p.allocates && p.added.AddFailed?)
  {
    SearchExact(s, p);
  }

  lemma SearchExact(s: Pool, p: Plane)
    ensures var a := FirstAccepted(s.count, s.next, p.accepts, 0);
      if a.Some? then !AllRefused(s, p) && FirstTaken(s, p, a.value) else AllRefused(s, p)
  {
    var a := FirstAccepted(s.count, s.next, p.accepts, 0);
    assert a.Some? ==> p.accepts(a.value, Cursor(s.count, s.next, a.value));
  }

  /** Which semaphore is initialised: the first, in round-robin order, that NVKMS accepts, and the
      cursor moves behind it. */
  lemma ConvertPlaneUse(s: Pool, p: Plane, a: nat)
    requires !p.cursor && p.onCrtc && p.hasFence && !p.syncpt && !p.postSyncpt && FirstTaken(s, p, a)
    ensures var s' := ConvertPlane(s, p).0;
      && s'.uses == s.uses + [Use(Cursor(s.count, s.next, a), p.allocates, p.added)]
      && s'.next == Cursor(s.count, s.next, a + 1)
  {
    SearchExact(s, p);
    var b := FirstAccepted(s.count, s.next, p.accepts, 0);
    assert b.Some? && FirstTaken(s, p, b.value);
    assert b.value == a;
  }

  /** Planes are converted in order up to the first that fails, whose error is the commit's; those
      after it are left alone. Planes of an inactive CRTC are all left alone. */
  lemma {:induction false} ConvertStops(s: Pool, ps: seq<Plane>, j: nat)
    requires j < |ps| && Convert(s, true, ps[..j]).1 == None_
    ensures var (s1, _) := Convert(s, true, ps[..j]);
      ConvertPlane(s1, ps[j]).1 != None_ ==> Convert(s, true, ps) == ConvertPlane(s1, ps[j])
    ensures Convert(s, false, ps) == (s, None_)
    decreases |ps|
  {
    if j > 0 {
      var (s', e) := ConvertPlane(s, ps[0]);
      assert ps[..j][0] == ps[0] && ps[..j][1..] == ps[1..][..j - 1];
      ConvertStops(s', ps[1..], j - 1);
    }
  }

  lemma {:induction false} ConvertInv(s: Pool, active: bool, ps: seq<Plane>)
    requires Inv(s)
    ensures Inv(Convert(s, active, ps).0)
    decreases |ps|
  {
    if active && ps != [] {
      ConvertPlaneInv(s, ps[0]);
      var (s', e) := ConvertPlane(s, ps[0]);
      if e == None_ {
        ConvertInv(s', active, ps[1..]);
      }
    }
  }

  lemma CallbackUseOk(s: Pool, u: nat, v: nat)
    requires UseOk(s, v)
    ensures UseOk(FenceCallback(s, u), v)
  {
    CountAppend(s.signalled, u, v);
  }

  lemma CallbackInv(s: Pool, u: nat)
    requires Inv(s)
    ensures Inv(FenceCallback(s, u))
  {
    forall v: nat ensures UseOk(FenceCallback(s, u), v) {
      CallbackUseOk(s, u, v);
    }
  }

  /** The callback of a fence signals its semaphore; other uses are left alone. */
  lemma CallbackSignals(s: Pool, u: nat)
    requires Inv(s) && u in s.outstanding
    ensures var s' := FenceCallback(s, u);
      && s'.outstanding == s.outstanding - {u} && s'.signalled == s.signalled + [u]
      && Count(s'.signalled, u) == 1 && Count(s'.cancelled, u) == 0 && s'.uses == s.uses && s'.next == s.next
  {
    assert UseOk(s, u);
    CallbackUseOk(s, u, u);
    CountAppend(s.signalled, u, u);
  }

  datatype Op = Commit(active: bool, planes: seq<Plane>) | FenceSignals(u: nat)

  function Exec(count: nat, ops: seq<Op>): Pool {
    if ops == [] then Pool(count, 0, [], {}, [], [])
    else
      var s := Exec(count, ops[..|ops| - 1]);
      match ops[|ops| - 1]
      case Commit(active, planes) => Convert(s, active, planes).0
      case FenceSignals(u) => FenceCallback(s, u)
  }

  /** Over any run of commits, whatever they are answered, and of fences being signalled, every
      semaphore initialised is signalled once, cancelled once, or still owned by one outstanding
      callback; and the cursor stays in the pool. */
  lemma {:induction false} EveryUseEndsOnce(count: nat, ops: seq<Op>)
    ensures Inv(Exec(count, ops))
  {
    if ops == [] {
      forall u: nat ensures UseOk(Exec(count, ops), u) {}
    } else {
      var n := |ops| - 1;
      EveryUseEndsOnce(count, ops[..n]);
      var s := Exec(count, ops[..n]);
      match ops[n]
      case Commit(active, planes) => ConvertInv(s, active, planes);
      case FenceSignals(u) => CallbackInv(s, u);
    }
  }

  /** The pool with the source's loops run in place. */
  class SemaphorePool {
    var pool: Pool

    constructor (count: nat)
      ensures pool == Pool(count, 0, [], {}, [], [])
    {
      pool := Pool(count, 0, [], {}, [], []);
    }

    /** nv_drm_next_display_semaphore. */
    method NextDisplaySemaphore() returns (index: nat)
      modifies this
      ensures index == old(pool).next
      ensures pool == old(pool).(next := Advance(old(pool).count, old(pool).next))
    {
      index := pool.next;
      pool := pool.(next := pool.next + 1);
      if pool.next >= pool.count {
        pool := pool.(next := 0);
      }
    }

    /** The search of one plane: at most `count` picks, stopping at the first that NVKMS accepts. */
    method FindSemaphore(accepts: (nat, nat) -> bool) returns (found: Option<nat>)
      modifies this
      ensures var a := FirstAccepted(old(pool).count, old(pool).next, accepts, 0);
        && (found.Some? <==> a.Some?)
        && (a.Some? ==> found.value == Cursor(old(pool).count, old(pool).next, a.value))
        && pool == old(pool).(next := Cursor(old(pool).count, old(pool).next,
                                             if a.Some? then a.value + 1 else old(pool).count))
    {
      ghost var count, start := pool.count, pool.next;
      var tries: nat := 0;
      while tries < pool.count
        invariant tries <= count && pool == old(pool).(next := Cursor(count, start, tries))
        invariant FirstAccepted(count, start, accepts, 0) == FirstAccepted(count, start, accepts, tries)
        decreases count - tries
      {
        var index := NextDisplaySemaphore();
        if accepts(tries, index) {
          return Some(index);
        }
        tries := tries + 1;
      }
      found := None;
    }

    /** __nv_drm_plane_fence_cb, for the use that its data names. */
    method PlaneFenceCb(u: nat)
      requires u in pool.outstanding
      modifies this
      ensures pool == FenceCallback(old(pool), u)
    {
      pool := pool.(signalled := pool.signalled + [u], outstanding := pool.outstanding - {u});
    }

    /** __nv_drm_convert_in_fences. */
    method ConvertInFences(active: bool, ps: seq<Plane>) returns (e: Error)
      modifies this
      ensures (pool, e) == Convert(old(pool), active, ps)
    {
      e := None_;
      if !active {
        return;
      }
      var i := 0;
      while i < |ps|
        invariant 0 <= i <= |ps| && e == None_
        invariant Convert(old(pool), active, ps) == Convert(pool, active, ps[i..])
      {
        assert ps[i..][1..] == ps[i + 1..];
        e := ConvertOne(ps[i]);
        if e != None_ {
          return;
        }
        i := i + 1;
      }
    }

    method ConvertOne(p: Plane) returns (e: Error)
      modifies this
      ensures (pool, e) == ConvertPlane(old(pool), p)
    {
      e := None_;
      if p.cursor || !p.onCrtc || !p.hasFence || p.syncpt {
        return;
      }
      if p.postSyncpt {
        return Einval;
      }
      var index := FindSemaphore(p.accepts);
      if index.None? {
        return Eagain;
      }
      var u := |pool.uses|;
      pool := pool.(uses := pool.uses + [Use(index.value, p.allocates, p.added)]);
      if !p.allocates {
        pool := pool.(cancelled := pool.cancelled + [u]);
        return Enomem;
      }
      match p.added
      case Added => pool := pool.(outstanding := pool.outstanding + {u});
      case AlreadySignalled => pool := pool.(signalled := pool.signalled + [u]);
      case AddFailed =>
        pool := pool.(cancelled := pool.cancelled + [u]);
        e := AddError;
    }
  }
}
