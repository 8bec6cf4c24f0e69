/**
 NVKMS timers and ref_ptrs (nvidia-modeset-linux.c): a timer's life spans a kernel timer, its
 softirq handler, an item of the work queue, the caller that holds its handle, and module exit.

 The work queue appears through what it guarantees: linked items are taken one at a time, in
 order, by one worker, and stop returns when nothing is linked or running. Each label is one
 region under `nvkms_timers.lock`, one region under `nvkms_lock`, or one kernel-timer action.
 */
module Timers {
  import opened Base

  /** A kernel timer: never set up, pending, in its handler before or after the handler queues the
      item, or idle. */
  datatype KernelTimer = NotCreated | Pending | HandlerStart | HandlerEnd | Idle

  /** Where nvkms_kthread_q_callback is. From `Decide` on it holds `nvkms_lock`. */
  datatype CallbackPc = Unlink | DeleteSync | TakeLock | Decide | InProc | Release | Unlock

  /** A timer's queue item; `Draining` and `Drained` belong to the drain at module exit. */
  datatype Work = Unqueued | Linked | Active(pc: CallbackPc) | Finished | Draining | Drained

  datatype Timer = Timer(
    isRef: bool,
    ref: nat,             // the ref_ptr of a ref timer
    kernel: KernelTimer,
    cancel: bool,
    complete: bool,
    work: Work,
    handleFreed: bool,    // nvkms_free_timer has been called
    procRuns: nat,
    released: nat         // how often its memory has been released
  )

  /** A ref_ptr. `live` until its owner clears the pointer. */
  datatype RefPtr = RefPtr(count: int, live: bool, released: nat)

  datatype Lock = Unlocked | ByCaller | ByWorker

  /** nvkms_exit: scanning position `i` under the timer lock, freeing a deactivated timer, about
      to restart, stopping the queue, done. */
  datatype ExitPc = NotExiting | Scan(i: nat) | Freeing(t: nat) | Restart | Stopping | Stopped

  datatype State = State(
    timers: seq<Timer>,
    refs: seq<RefPtr>,
    list: seq<nat>,        // nvkms_timers.list
    queue: seq<nat>,       // items linked in nvkms_kthread_q
    worker: Option<nat>,   // the timer whose callback is running
    lock: Lock,            // nvkms_lock
    exit: ExitPc,
    requeued: bool,        // an item was queued while it was already linked
    allocs: seq<Option<nat>>,  // per timer, the ref_ptr it was allocated on, or None for a handle
    freed: set<nat>,           // the ref_ptrs that their owners have freed
    callers: nat               // callers between down and up of `nvkms_lock`
  )

  datatype Label =
    | AllocRef
    | FreeRef(r: nat)
    | AllocTimer(immediate: bool)
    | AllocRefTimer(r: nat, immediate: bool)
    | KernelFire(t: nat)
    | HandlerQueue(t: nat)
    | HandlerReturn(t: nat)
    | Take
    | CbUnlink
    | CbDeleteSync
    | CbTakeLock
    | CbDecide
    | CbProcEnd
    | CbRelease
    | CbUnlock
    | CallerLock
    | CallerUnlock
    | FreeTimer(t: nat)
    | BeginExit
    | DrainScan
    | DrainFree
    | DrainRestart
    | DrainEnd
    | StopQueue

  const Init: State := State([], [], [], [], None, Unlocked, NotExiting, false, [], {}, 0)

  function Remove(l: seq<nat>, t: nat): seq<nat> {
    if l == [] then [] else (if l[0] == t then [] else [l[0]]) + Remove(l[1..], t)
  }

  lemma {:induction false} RemoveMembers(l: seq<nat>, t: nat)
    ensures forall x :: x in Remove(l, t) <==> x in l && x != t
    ensures |Remove(l, t)| <= |l| && (t in l ==> |Remove(l, t)| < |l|)
  {
    if l != [] {
      RemoveMembers(l[1..], t);
      assert l == [l[0]] + l[1..];
    }
  }

  lemma {:induction false} RemoveNoDuplicates(l: seq<nat>, t: nat)
    requires NoDuplicates(l)
    ensures NoDuplicates(Remove(l, t))
  {
    if l != [] {
      RemoveNoDuplicates(l[1..], t);
      RemoveMembers(l[1..], t);
      assert l[0] !in l[1..];
    }
  }

  /** `nvkms_lock` is held by a caller, or by the proc that the worker is running. */
  predicate CallerHoldsLock(s: State) {
    s.lock.ByCaller? || (s.worker.Some? && s.worker.value < |s.timers|
                         && s.timers[s.worker.value].work == Active(InProc))
  }

  predicate WorkerAt(s: State, pc: CallbackPc) {
    s.worker.Some? && s.worker.value < |s.timers| && s.timers[s.worker.value].work == Active(pc)
  }

  predicate HandlerRunning(k: KernelTimer) { k.HandlerStart? || k.HandlerEnd? }

  predicate Enabled(s: State, l: Label) {
    match l
    case AllocRef => s.exit.NotExiting?
    case FreeRef(r) => r < |s.refs| && s.refs[r].live && CallerHoldsLock(s)
    case AllocTimer(_) => s.exit.NotExiting?
    case AllocRefTimer(r, _) => s.exit.NotExiting? && r < |s.refs| && s.refs[r].live
    case KernelFire(t) => t < |s.timers| && s.timers[t].kernel.Pending?
    case HandlerQueue(t) => t < |s.timers| && s.timers[t].kernel.HandlerStart?
    case HandlerReturn(t) => t < |s.timers| && s.timers[t].kernel.HandlerEnd?
    case Take => s.worker.None? && s.queue != [] && s.queue[0] < |s.timers|
    case CbUnlink => WorkerAt(s, Unlink) && !s.exit.Scan?
    case CbDeleteSync => WorkerAt(s, DeleteSync) && !HandlerRunning(s.timers[s.worker.value].kernel)
    case CbTakeLock => WorkerAt(s, TakeLock) && s.lock.Unlocked?
    case CbDecide =>
      WorkerAt(s, Decide) &&
      (s.timers[s.worker.value].isRef ==> s.timers[s.worker.value].ref < |s.refs|)
    case CbProcEnd => WorkerAt(s, InProc)
    case CbRelease => WorkerAt(s, Release)
    case CbUnlock => WorkerAt(s, Unlock)
    case CallerLock => s.lock.Unlocked?
    case CallerUnlock => s.lock.ByCaller?
    case FreeTimer(t) =>
      && t < |s.timers| && !s.timers[t].isRef && !s.timers[t].handleFreed
      && CallerHoldsLock(s) && s.exit.NotExiting?
    case BeginExit =>
      && s.exit.NotExiting? && s.lock.Unlocked?
      && forall t :: 0 <= t < |s.timers| && !s.timers[t].isRef ==> s.timers[t].handleFreed
    case DrainScan =>
      && s.exit.Scan? && s.exit.i < |s.list| && s.list[s.exit.i] < |s.timers|
      && !HandlerRunning(s.timers[s.list[s.exit.i]].kernel)
    case DrainFree =>
      && s.exit.Freeing? && s.exit.t < |s.timers|
      && (s.timers[s.exit.t].isRef ==> s.timers[s.exit.t].ref < |s.refs|)
    case DrainRestart => s.exit.Restart?
    case DrainEnd => s.exit.Scan? && s.exit.i == |s.list|
    case StopQueue => s.exit.Stopping? && s.queue == [] && s.worker.None?
  }

  function Set(s: State, t: nat, x: Timer): State
    requires t < |s.timers|
  {
    s.(timers := s.timers[t := x])
  }

  /** nvkms_dec_ref: the object goes with its last reference. */
  function DecRef(p: RefPtr): RefPtr {
    p.(count := p.count - 1, released := p.released + if p.count == 1 then 1 else 0)
  }

  /** nvkms_init_timer: on the list, and either queued at once or waiting for its kernel timer. */
  function InitTimer(s: State, isRef: bool, r: nat, immediate: bool): State {
    var t := |s.timers|;
    var x := Timer(isRef, r, if immediate then NotCreated else Pending, false, false,
                   if immediate then Linked else Unqueued, false, 0, 0);
    s.(timers := s.timers + [x], list := [t] + s.list,
       queue := if immediate then s.queue + [t] else s.queue)
  }

  /** nvkms_free_timer, under `nvkms_lock`. */
  function FreeHandle(x: Timer): Timer {
    if x.complete then x.(handleFreed := true, released := x.released + 1)
    else x.(handleFreed := true, cancel := true)
  }

  /** The callback's decision under `nvkms_lock`: a ref timer whose owner has cleared the pointer
      counts as cancelled; a timer that is not cancelled runs its proc. */
  function DecideTimer(x: Timer, ownerLive: bool): Timer {
    var cancel := x.cancel || (x.isRef && !ownerLive);
    if cancel then x.(cancel := true, work := Active(Release))
    else x.(work := Active(InProc), procRuns := x.procRuns + 1)
  }

  /** The callback's release: always for a ref timer, otherwise if the handle was freed. */
  function ReleaseTimer(x: Timer): Timer {
    x.(work := Active(Unlock), released := x.released + if x.isRef || x.cancel then 1 else 0)
  }

  function Apply(s: State, l: Label): State
    requires Enabled(s, l)
  {
    match l
    case AllocRef => s.(refs := s.refs + [RefPtr(1, true, 0)])
    case FreeRef(r) => s.(refs := s.refs[r := DecRef(s.refs[r].(live := false))], freed := s.freed + {r})
    case AllocTimer(immediate) => InitTimer(s, false, 0, immediate).(allocs := s.allocs + [None])
    case AllocRefTimer(r, immediate) =>
      InitTimer(s.(refs := s.refs[r := s.refs[r].(count := s.refs[r].count + 1)]), true, r, immediate)
        .(allocs := s.allocs + [Some(r)])
    case KernelFire(t) => Set(s, t, s.timers[t].(kernel := HandlerStart))
    case HandlerQueue(t) =>
      if t in s.queue then Set(s, t, s.timers[t].(kernel := HandlerEnd)).(requeued := true)
      else Set(s, t, s.timers[t].(kernel := HandlerEnd, work := Linked)).(queue := s.queue + [t])
    case HandlerReturn(t) => Set(s, t, s.timers[t].(kernel := Idle))
    case Take =>
      var t := s.queue[0];
      Set(s, t, s.timers[t].(work := Active(Unlink))).(queue := s.queue[1..], worker := Some(t))
    case CbUnlink =>
      var t := s.worker.value;
      Set(s, t, s.timers[t].(work := Active(DeleteSync))).(list := Remove(s.list, t))
    case CbDeleteSync =>
      var t := s.worker.value;
      var x := s.timers[t];
      Set(s, t, x.(work := Active(TakeLock), kernel := if x.kernel.NotCreated? then NotCreated else Idle))
    case CbTakeLock =>
      var t := s.worker.value;
      Set(s, t, s.timers[t].(work := Active(Decide))).(lock := ByWorker)
    case CbDecide =>
      var t := s.worker.value;
      var x := s.timers[t];
      if x.isRef
      then Set(s, t, DecideTimer(x, s.refs[x.ref].live)).(refs := s.refs[x.ref := DecRef(s.refs[x.ref])])
      else Set(s, t, DecideTimer(x, true))
    case CbProcEnd =>
      var t := s.worker.value;
      Set(s, t, s.timers[t].(work := Active(Release), complete := true))
    case CbRelease =>
      var t := s.worker.value;
      Set(s, t, ReleaseTimer(s.timers[t]))
    case CbUnlock =>
      var t := s.worker.value;
      Set(s, t, s.timers[t].(work := Finished)).(worker := None, lock := Unlocked)
    case CallerLock => s.(lock := ByCaller, callers := s.callers + 1)
    case CallerUnlock => s.(lock := Unlocked, callers := if s.callers > 0 then s.callers - 1 else 0)
    case FreeTimer(t) => Set(s, t, FreeHandle(s.timers[t]))
    case BeginExit => s.(exit := Scan(0))
    case DrainScan =>
      var t := s.list[s.exit.i];
      if s.timers[t].kernel.Pending?
      then Set(s, t, s.timers[t].(kernel := Idle, work := Draining))
             .(list := Remove(s.list, t), exit := Freeing(t))
      else s.(exit := Scan(s.exit.i + 1))
    case DrainFree =>
      var x := s.timers[s.exit.t];
      var s' := Set(s, s.exit.t, x.(work := Drained, released := x.released + 1)).(exit := Restart);
      if x.isRef then s'.(refs := s.refs[x.ref := DecRef(s.refs[x.ref])]) else s'
    case DrainRestart => s.(exit := Scan(0))
    case DrainEnd => s.(exit := Stopping)
    case StopQueue => s.(exit := Stopped)
  }

  ghost predicate Next(s: State, s': State) {
    exists l :: Enabled(s, l) && s' == Apply(s, l)
  }

  ghost predicate Run(tr: seq<State>) {
    |tr| > 0 && tr[0] == Init && forall i :: 0 < i < |tr| ==> Next(tr[i - 1], tr[i])
  }

  // One timer

  /** The flags of a handle's timer agree with the calls made so far, as long as its proc has not
      completed. */
  predicate Uncompleted(x: Timer) {
    !x.complete && x.released == 0 && (if x.isRef then !x.cancel else x.cancel == x.handleFreed)
  }

  /** What holds of a timer at each stage of its life. */
  predicate TimerOk(x: Timer) {
    && (x.isRef ==> !x.handleFreed)
    && match x.work {
         case Unqueued => Uncompleted(x) && x.procRuns == 0 && (x.kernel.Pending? || x.kernel.HandlerStart?)
         case Linked =>
           Uncompleted(x) && x.procRuns == 0 && !x.kernel.Pending? && !x.kernel.HandlerStart?
         case Active(pc) =>
           && !x.kernel.Pending? && !x.kernel.HandlerStart?
           && (!pc.Unlink? && !pc.DeleteSync? ==> !x.kernel.HandlerEnd?)
           && match pc {
                case InProc => Uncompleted(x) && x.procRuns == 1
                case Release =>
                  x.released == 0 && x.procRuns <= 1 && x.complete == (x.procRuns == 1)
                  && (x.isRef || (x.cancel == x.handleFreed)) && (x.complete || x.cancel)
                case Unlock => Settled(x)
                case _ => Uncompleted(x) && x.procRuns == 0
              }
         case Finished => Settled(x) && !HandlerRunning(x.kernel) && !x.kernel.Pending?
         case Draining => Uncompleted(x) && x.procRuns == 0 && x.kernel.Idle?
         case Drained => x.released == 1 && x.procRuns == 0 && x.kernel.Idle?
       }
  }

  /** After its callback a timer has been released once if it is a ref timer or its handle was
      freed, and otherwise is complete and waits for that. */
  predicate Settled(x: Timer) {
    && x.procRuns <= 1
    && x.complete == (x.procRuns == 1)
    && x.released == (if x.isRef || x.handleFreed then 1 else 0)
    && (!x.isRef && !x.handleFreed ==> x.complete)
  }

  predicate OnList(w: Work) { w.Unqueued? || w.Linked? || w == Active(Unlink) }

  /** A timer is where its stage says: on the list, linked in the queue, run by the worker, or being
      freed by the drain. */
  predicate At(s: State, t: nat)
    requires t < |s.timers|
  {
    var x := s.timers[t];
    && TimerOk(x)
    && (t in s.list <==> OnList(x.work))
    && (t in s.queue <==> x.work.Linked?)
    && (s.worker == Some(t) <==> x.work.Active?)
    && (s.exit == Freeing(t) <==> x.work.Draining?)
    && (s.exit.NotExiting? ==> !x.work.Drained?)
    && (!s.exit.NotExiting? && !x.isRef ==> x.handleFreed)
    && (s.exit.Stopping? || s.exit.Stopped? ==> !x.work.Unqueued?)
    && (x.isRef ==> x.ref < |s.refs|)
  }

  predicate AllAt(s: State) {
    forall t :: 0 <= t < |s.timers| ==> At(s, t)
  }

  predicate Known(l: seq<nat>, n: nat) {
    forall x :: x in l ==> x < n
  }

  /** The first `i` timers of the list have been passed by the drain: none waits for its timer. */
  predicate Scanned(s: State, i: nat) {
    i <= |s.list| &&
    forall j :: 0 <= j < i && s.list[j] < |s.timers| ==> !s.timers[s.list[j]].work.Unqueued?
  }

  predicate HoldsLock(pc: CallbackPc) { pc.Decide? || pc.InProc? || pc.Release? || pc.Unlock? }

  predicate ListsOk(s: State) {
    && NoDuplicates(s.list) && Known(s.list, |s.timers|)
    && NoDuplicates(s.queue) && Known(s.queue, |s.timers|)
    && !s.requeued
  }

  predicate WorkerOk(s: State) {
    && (s.worker.Some? ==> s.worker.value < |s.timers| && s.timers[s.worker.value].work.Active?)
    && (s.lock.ByWorker? <==> s.worker.Some? && HoldsLock(s.timers[s.worker.value].work.pc))
    && s.callers == (if s.lock.ByCaller? then 1 else 0)
  }

  predicate ExitOk(s: State) {
    && (s.exit.Freeing? ==> s.exit.t < |s.timers|)
    && (s.exit.Scan? ==> Scanned(s, s.exit.i))
    && (s.exit.Stopped? ==> s.queue == [] && s.worker.None?)
  }

  predicate Globals(s: State) {
    ListsOk(s) && WorkerOk(s) && ExitOk(s)
  }

  // References

  /** A ref timer that has not yet dropped its reference to `r`. */
  predicate Owes(x: Timer, r: nat) {
    && x.isRef && x.ref == r
    && (x.work.Unqueued? || x.work.Linked? || x.work.Draining?
        || (x.work.Active? && (x.work.pc.Unlink? || x.work.pc.DeleteSync? || x.work.pc.TakeLock?
                               || x.work.pc.Decide?)))
  }

  function Owing(r: nat): Timer -> nat {
    (x: Timer) => if Owes(x, r) then 1 else 0
  }

  /** How many timers still hold a reference to `r`. */
  function Outstanding(ts: seq<Timer>, r: nat): nat {
    SumOf(ts, Owing(r))
  }

  /** One reference for a live owner and one for each timer that still owes its drop; the object is
      released exactly when none is left. */
  predicate RefOk(s: State, r: nat)
    requires r < |s.refs|
  {
    && s.refs[r].count == (if s.refs[r].live then 1 else 0) + Outstanding(s.timers, r)
    && s.refs[r].released == (if s.refs[r].count == 0 then 1 else 0)
  }

  predicate RefsOk(s: State) {
    forall r :: 0 <= r < |s.refs| ==> RefOk(s, r)
  }

  /** A timer is of the kind it was allocated as. */
  predicate KindOk(a: Option<nat>, x: Timer) {
    x.isRef == a.Some? && (a.Some? ==> x.ref == a.value)
  }

  predicate KindsOk(s: State) {
    |s.allocs| == |s.timers| && forall t :: 0 <= t < |s.timers| ==> KindOk(s.allocs[t], s.timers[t])
  }

  /** The owner of a ref_ptr is gone exactly once it has freed it. */
  predicate OwnersOk(s: State) {
    && (forall r :: r in s.freed ==> r < |s.refs|)
    && forall r :: 0 <= r < |s.refs| ==> (s.refs[r].live <==> r !in s.freed)
  }

  ghost predicate Inv(s: State) {
    AllAt(s) && Globals(s) && RefsOk(s) && KindsOk(s) && OwnersOk(s)
  }

  /** The timer a step works on. */
  function Subject(s: State, l: Label): Option<nat> {
    match l
    case KernelFire(t) => Some(t)
    case HandlerQueue(t) => Some(t)
    case HandlerReturn(t) => Some(t)
    case FreeTimer(t) => Some(t)
    case Take => if s.queue != [] then Some(s.queue[0]) else None
    case DrainScan => if s.exit.Scan? && s.exit.i < |s.list| then Some(s.list[s.exit.i]) else None
    case DrainFree => if s.exit.Freeing? then Some(s.exit.t) else None
    case AllocRef => None
    case FreeRef(_) => None
    case AllocTimer(_) => None
    case AllocRefTimer(_, _) => None
    case CallerLock => None
    case CallerUnlock => None
    case BeginExit => None
    case DrainRestart => None
    case DrainEnd => None
    case StopQueue => None
    case _ => s.worker
  }

  predicate ExitLabel(l: Label) {
    l.BeginExit? || l.DrainScan? || l.DrainFree? || l.DrainRestart? || l.DrainEnd? || l.StopQueue?
  }

  predicate CallbackLabel(l: Label) {
    l.CbUnlink? || l.CbDeleteSync? || l.CbTakeLock? || l.CbDecide? || l.CbProcEnd? || l.CbRelease? || l.CbUnlock?
  }

  lemma EarlyCallbackAt(s: State, l: Label, t: nat)
    requires Enabled(s, l) && (l.CbUnlink? || l.CbDeleteSync? || l.CbTakeLock? || l.CbUnlock?)
    requires s.worker == Some(t) && t < |s.timers| && At(s, t)
    ensures At(Apply(s, l), t)
  {
    RemoveMembers(s.list, t);
  }

  lemma LockedCallbackAt(s: State, l: Label, t: nat)
    requires Enabled(s, l) && (l.CbDecide? || l.CbProcEnd? || l.CbRelease?)
    requires s.worker == Some(t) && t < |s.timers| && At(s, t)
    ensures At(Apply(s, l), t)
  {}

  lemma CallbackSubjectAt(s: State, l: Label, t: nat)
    requires Enabled(s, l) && CallbackLabel(l) && s.worker == Some(t) && t < |s.timers| && At(s, t)
    ensures At(Apply(s, l), t)
  {
    if l.CbDecide? || l.CbProcEnd? || l.CbRelease? {
      LockedCallbackAt(s, l, t);
    } else {
      EarlyCallbackAt(s, l, t);
    }
  }

  lemma ExitSubjectAt(s: State, l: Label, t: nat)
    requires Enabled(s, l) && ExitLabel(l) && Subject(s, l) == Some(t) && t < |s.timers| && At(s, t)
    ensures At(Apply(s, l), t)
  {
    RemoveMembers(s.list, t);
  }

  lemma OtherSubjectAt(s: State, l: Label, t: nat)
    requires Enabled(s, l) && Subject(s, l) == Some(t) && t < |s.timers| && At(s, t) && Globals(s)
    requires !CallbackLabel(l) && !ExitLabel(l)
    ensures At(Apply(s, l), t)
  {}

  lemma Unmoved(s: State, s': State, t: nat)
    requires t < |s.timers| <= |s'.timers| && At(s, t) && s'.timers[t] == s.timers[t]
    requires t in s'.list <==> t in s.list
    requires t in s'.queue <==> t in s.queue
    requires s'.worker == Some(t) <==> s.worker == Some(t)
    requires s'.exit == s.exit && |s.refs| <= |s'.refs|
    ensures At(s', t)
  {}

  lemma CallbackBystanderAt(s: State, l: Label, t: nat)
    requires Enabled(s, l) && CallbackLabel(l) && s.worker != Some(t) && t < |s.timers| && At(s, t)
    ensures At(Apply(s, l), t)
  {
    RemoveMembers(s.list, s.worker.value);
    Unmoved(s, Apply(s, l), t);
  }

  /** A timer that still waits is on the list, so a finished scan has found none. */
  lemma ScanComplete(s: State, t: nat)
    requires Globals(s) && Enabled(s, DrainEnd) && t < |s.timers| && At(s, t)
    ensures !s.timers[t].work.Unqueued?
  {
    assert t in s.list ==> exists j :: 0 <= j < |s.list| && s.list[j] == t;
  }

  lemma ScanBystanderAt(s: State, t: nat)
    requires Enabled(s, DrainScan) && s.list[s.exit.i] != t && t < |s.timers| && At(s, t)
    ensures At(Apply(s, DrainScan), t)
  {
    RemoveMembers(s.list, s.list[s.exit.i]);
  }

  lemma ExitBystanderAt(s: State, l: Label, t: nat)
    requires Enabled(s, l) && ExitLabel(l) && Subject(s, l) != Some(t) && t < |s.timers| && At(s, t)
    requires Globals(s)
    ensures At(Apply(s, l), t)
  {
    if l.DrainScan? {
      ScanBystanderAt(s, t);
    } else if l.DrainEnd? {
      ScanComplete(s, t);
    }
  }

  lemma OtherBystanderAt(s: State, l: Label, t: nat)
    requires Enabled(s, l) && !CallbackLabel(l) && !ExitLabel(l)
    requires Subject(s, l) != Some(t) && t < |s.timers| && At(s, t)
    ensures At(Apply(s, l), t)
  {
    Unmoved(s, Apply(s, l), t);
  }

  lemma NewTimerAt(s: State, l: Label)
    requires Enabled(s, l) && Globals(s) && |Apply(s, l).timers| > |s.timers|
    ensures At(Apply(s, l), |s.timers|)
  {
    assert |s.timers| !in s.list && |s.timers| !in s.queue;
  }

  /** Allocation makes one timer, of the kind asked for, first on the list; without delay its item is
      the last of the queue and it has no kernel timer, with a delay its kernel timer is pending and
      the queue is as before. On a ref_ptr it adds one to the count and to the references owed. */
  lemma AllocMakes(s: State, l: Label)
    requires Enabled(s, l) && (l.AllocTimer? || l.AllocRefTimer?)
    ensures var s' := Apply(s, l); var n := |s.timers|;
      && |s'.timers| == n + 1 && s'.timers[..n] == s.timers && s'.list == [n] + s.list
      && s'.timers[n].isRef == l.AllocRefTimer?
      && (if l.immediate then s'.queue == s.queue + [n] && s'.timers[n].kernel.NotCreated?
          else s'.queue == s.queue && s'.timers[n].kernel.Pending?)
      && (l.AllocRefTimer? ==> l.r < |s'.refs| && s'.refs[l.r].count == s.refs[l.r].count + 1
                               && Outstanding(s'.timers, l.r) == Outstanding(s.timers, l.r) + 1)
      && (l.AllocTimer? ==> s'.refs == s.refs)
  {
    if l.AllocRefTimer? {
      SumAppend(s.timers, Apply(s, l).timers[|s.timers|], Owing(l.r));
    }
  }

  lemma SubjectAt(s: State, l: Label, t: nat)
    requires Enabled(s, l) && Globals(s) && t < |s.timers| && At(s, t) && Subject(s, l) == Some(t)
    ensures At(Apply(s, l), t)
  {
    if CallbackLabel(l) {
      CallbackSubjectAt(s, l, t);
    } else if ExitLabel(l) {
      ExitSubjectAt(s, l, t);
    } else {
      OtherSubjectAt(s, l, t);
    }
  }

  lemma BystanderAt(s: State, l: Label, t: nat)
    requires Enabled(s, l) && Globals(s) && t < |s.timers| && At(s, t) && Subject(s, l) != Some(t)
    ensures At(Apply(s, l), t)
  {
    if CallbackLabel(l) {
      CallbackBystanderAt(s, l, t);
    } else if ExitLabel(l) {
      ExitBystanderAt(s, l, t);
    } else {
      OtherBystanderAt(s, l, t);
    }
  }

  lemma AtStep(s: State, l: Label, t: nat)
    requires Enabled(s, l) && Globals(s) && t < |Apply(s, l).timers|
    requires t < |s.timers| ==> At(s, t)
    ensures At(Apply(s, l), t)
  {
    if t >= |s.timers| {
      NewTimerAt(s, l);
    } else if Subject(s, l) == Some(t) {
      SubjectAt(s, l, t);
    } else {
      BystanderAt(s, l, t);
    }
  }

  lemma NewListed(l: seq<nat>, n: nat)
    requires NoDuplicates(l) && Known(l, n)
    ensures NoDuplicates([n] + l) && Known([n] + l, n + 1)
    ensures NoDuplicates(l + [n]) && Known(l + [n], n + 1)
  {
    assert n !in l;
  }

  lemma ListsStep(s: State, l: Label)
    requires Enabled(s, l) && ListsOk(s)
    requires l.HandlerQueue? ==> At(s, l.t)
    ensures ListsOk(Apply(s, l))
  {
    if l.CbUnlink? {
      RemoveMembers(s.list, s.worker.value);
      RemoveNoDuplicates(s.list, s.worker.value);
    } else if l.DrainScan? {
      RemoveMembers(s.list, s.list[s.exit.i]);
      RemoveNoDuplicates(s.list, s.list[s.exit.i]);
    } else if l.AllocTimer? || l.AllocRefTimer? {
      NewListed(s.list, |s.timers|);
      NewListed(s.queue, |s.timers|);
    } else if l.Take? {
      assert forall x :: x in s.queue[1..] ==> x in s.queue;
    }
  }

  lemma CallbackWorkerStep(s: State, l: Label)
    requires Enabled(s, l) && CallbackLabel(l) && WorkerOk(s) && s.worker.Some?
    ensures WorkerOk(Apply(s, l))
  {}

  lemma TimerWorkerStep(s: State, l: Label, t: nat)
    requires Enabled(s, l) && !CallbackLabel(l) && Subject(s, l) == Some(t) && t < |s.timers| && At(s, t)
    requires WorkerOk(s)
    ensures WorkerOk(Apply(s, l))
  {}

  lemma OtherWorkerStep(s: State, l: Label)
    requires Enabled(s, l) && Subject(s, l).None? && !CallbackLabel(l) && WorkerOk(s)
    ensures WorkerOk(Apply(s, l))
  {}

  lemma WorkerStep(s: State, l: Label)
    requires Enabled(s, l) && WorkerOk(s)
    requires Subject(s, l).Some? ==> Subject(s, l).value < |s.timers| && At(s, Subject(s, l).value)
    ensures WorkerOk(Apply(s, l))
  {
    if CallbackLabel(l) {
      CallbackWorkerStep(s, l);
    } else if Subject(s, l).Some? {
      TimerWorkerStep(s, l, Subject(s, l).value);
    } else {
      OtherWorkerStep(s, l);
    }
  }

  lemma ScanStep(s: State)
    requires Enabled(s, DrainScan) && Globals(s) && AllAt(s)
    ensures ExitOk(Apply(s, DrainScan))
  {
    assert At(s, s.list[s.exit.i]);
  }

  lemma ScannedStep(s: State, l: Label)
    requires Enabled(s, l) && s.exit.Scan? && Scanned(s, s.exit.i) && Apply(s, l).exit == s.exit
    ensures Scanned(Apply(s, l), s.exit.i)
  {}

  lemma StoppedStep(s: State, l: Label)
    requires Enabled(s, l) && ExitOk(s) && (l.HandlerQueue? ==> At(s, l.t))
    ensures Apply(s, l).exit.Stopped? ==> Apply(s, l).queue == [] && Apply(s, l).worker.None?
    ensures Apply(s, l).exit.Freeing? && !l.DrainScan? ==> Apply(s, l).exit.t < |Apply(s, l).timers|
    ensures Apply(s, l).exit.Scan? && !l.DrainScan? ==> Apply(s, l).exit == s.exit || Apply(s, l).exit == Scan(0)
  {}

  lemma ExitStep(s: State, l: Label)
    requires Enabled(s, l) && Globals(s) && AllAt(s)
    ensures ExitOk(Apply(s, l))
  {
    if l.DrainScan? {
      ScanStep(s);
    } else {
      assert l.HandlerQueue? ==> At(s, l.t);
      StoppedStep(s, l);
      if s.exit.Scan? && Apply(s, l).exit == s.exit {
        ScannedStep(s, l);
      }
    }
  }

  lemma NewRefOk(s: State)
    requires Enabled(s, AllocRef) && AllAt(s)
    ensures RefOk(Apply(s, AllocRef), |s.refs|)
  {
    forall t | 0 <= t < |s.timers| && s.timers[t].isRef ensures s.timers[t].ref < |s.refs| {
      assert At(s, t);
    }
    SumZero(s.timers, Owing(|s.refs|));
  }

  lemma RefDropStep(s: State, l: Label, t: nat, r: nat)
    requires Enabled(s, l) && (l.CbDecide? || l.DrainFree?) && Subject(s, l) == Some(t)
    requires r < |s.refs| && RefOk(s, r) && t < |s.timers| && At(s, t)
    ensures RefOk(Apply(s, l), r)
  {
    SumUpdate(s.timers, t, Apply(s, l).timers[t], Owing(r));
  }

  lemma SameOwed(s: State, l: Label, t: nat, r: nat)
    requires Enabled(s, l) && !l.CbDecide? && !l.DrainFree? && Subject(s, l) == Some(t)
    requires t < |s.timers| && At(s, t)
    ensures Owes(Apply(s, l).timers[t], r) == Owes(s.timers[t], r)
    ensures Apply(s, l).refs == s.refs
    ensures Apply(s, l).timers == s.timers[t := Apply(s, l).timers[t]]
  {}

  lemma RefSubjectStep(s: State, l: Label, t: nat, r: nat)
    requires Enabled(s, l) && r < |s.refs| && RefOk(s, r) && Subject(s, l) == Some(t)
    requires t < |s.timers| && At(s, t)
    ensures RefOk(Apply(s, l), r)
  {
    if l.CbDecide? || l.DrainFree? {
      RefDropStep(s, l, t, r);
    } else {
      SameOwed(s, l, t, r);
      SumUpdate(s.timers, t, Apply(s, l).timers[t], Owing(r));
    }
  }

  lemma RefAllocStep(s: State, l: Label, r: nat)
    requires Enabled(s, l) && (l.AllocTimer? || l.AllocRefTimer?) && r < |s.refs| && RefOk(s, r)
    ensures RefOk(Apply(s, l), r)
  {
    var x := Apply(s, l).timers[|s.timers|];
    assert Owing(r)(x) == if l.AllocRefTimer? && l.r == r then 1 else 0;
    SumAppend(s.timers, x, Owing(r));
  }

  lemma RefOwnerStep(s: State, l: Label, r: nat)
    requires Enabled(s, l) && (l.AllocRef? || l.FreeRef?) && r < |s.refs| && RefOk(s, r)
    ensures RefOk(Apply(s, l), r)
  {}

  lemma RefOtherStep(s: State, l: Label, r: nat)
    requires Enabled(s, l) && r < |s.refs| && RefOk(s, r) && Subject(s, l).None?
    ensures RefOk(Apply(s, l), r)
  {
    if l.AllocTimer? || l.AllocRefTimer? {
      RefAllocStep(s, l, r);
    } else if l.AllocRef? || l.FreeRef? {
      RefOwnerStep(s, l, r);
    } else {
      assert Apply(s, l).timers == s.timers && Apply(s, l).refs == s.refs;
    }
  }

  lemma RefsStep(s: State, l: Label)
    requires Enabled(s, l) && AllAt(s) && RefsOk(s)
    requires Subject(s, l).Some? ==> Subject(s, l).value < |s.timers|
    ensures RefsOk(Apply(s, l))
  {
    forall r | 0 <= r < |Apply(s, l).refs| ensures RefOk(Apply(s, l), r) {
      if r == |s.refs| {
        NewRefOk(s);
      } else {
        assert RefOk(s, r);
        if Subject(s, l).Some? {
          assert At(s, Subject(s, l).value);
          RefSubjectStep(s, l, Subject(s, l).value, r);
        } else {
          RefOtherStep(s, l, r);
        }
      }
    }
  }

  predicate SameKind(s: State, s': State, t: nat)
    requires t < |s.timers|
  {
    && t < |s'.timers| && s'.timers[t].isRef == s.timers[t].isRef && s'.timers[t].ref == s.timers[t].ref
    && s.allocs <= s'.allocs
  }

  lemma CallbackKind(s: State, l: Label, t: nat)
    requires Enabled(s, l) && CallbackLabel(l) && t < |s.timers|
    ensures SameKind(s, Apply(s, l), t)
  {}

  lemma OtherKind(s: State, l: Label, t: nat)
    requires Enabled(s, l) && !CallbackLabel(l) && t < |s.timers|
    ensures SameKind(s, Apply(s, l), t)
  {}

  lemma KindStep(s: State, l: Label, t: nat)
    requires Enabled(s, l) && t < |s.timers|
    ensures SameKind(s, Apply(s, l), t)
  {
    if CallbackLabel(l) {
      CallbackKind(s, l, t);
    } else {
      OtherKind(s, l, t);
    }
  }

  /** A timer made on a ref_ptr is a ref timer of that ref_ptr; one made for a handle is none. */
  lemma NewKind(s: State, l: Label)
    requires Enabled(s, l) && KindsOk(s)
    ensures var s' := Apply(s, l);
      && |s'.allocs| == |s'.timers| <= |s.timers| + 1
      && (|s'.timers| > |s.timers| ==> KindOk(s'.allocs[|s.timers|], s'.timers[|s.timers|]))
  {}

  lemma KindsStep(s: State, l: Label)
    requires Enabled(s, l) && KindsOk(s)
    ensures KindsOk(Apply(s, l))
  {
    NewKind(s, l);
    forall t | 0 <= t < |s.timers| ensures KindOk(Apply(s, l).allocs[t], Apply(s, l).timers[t]) {
      KindStep(s, l, t);
    }
  }

  lemma OwnersStep(s: State, l: Label)
    requires Enabled(s, l) && OwnersOk(s)
    ensures OwnersOk(Apply(s, l))
  {}

  lemma AllAtStep(s: State, l: Label)
    requires Enabled(s, l) && AllAt(s) && Globals(s)
    ensures AllAt(Apply(s, l))
  {
    forall t | 0 <= t < |Apply(s, l).timers| ensures At(Apply(s, l), t) {
      assert t < |s.timers| ==> At(s, t);
      AtStep(s, l, t);
    }
  }

  lemma SubjectKnown(s: State, l: Label)
    requires Enabled(s, l) && Globals(s) && Subject(s, l).Some?
    ensures Subject(s, l).value < |s.timers|
  {}

  lemma GlobalsStep(s: State, l: Label)
    requires Enabled(s, l) && AllAt(s) && Globals(s)
    ensures Globals(Apply(s, l))
  {
    assert l.HandlerQueue? ==> At(s, l.t);
    ListsStep(s, l);
    if Subject(s, l).Some? {
      SubjectKnown(s, l);
      assert At(s, Subject(s, l).value);
    }
    WorkerStep(s, l);
    ExitStep(s, l);
  }

  lemma ApplyInv(s: State, l: Label)
    requires Inv(s) && Enabled(s, l)
    ensures Inv(Apply(s, l))
  {
    AllAtStep(s, l);
    GlobalsStep(s, l);
    RefsStep(s, l);
    KindsStep(s, l);
    OwnersStep(s, l);
  }

  lemma StepInv(s: State, s': State)
    requires Inv(s) && Next(s, s')
    ensures Inv(s')
  {
    var l :| Enabled(s, l) && s' == Apply(s, l);
    ApplyInv(s, l);
  }

  lemma {:induction false} RunInv(tr: seq<State>)
    requires Run(tr)
    ensures Inv(tr[|tr| - 1])
  {
    var n := |tr| - 1;
    if n > 0 {
      RunInv(tr[..n]);
      StepInv(tr[n - 1], tr[n]);
    }
  }

  // What a run guarantees

  /** A timer's memory is released at most once; never while its kernel timer is pending, its
      handler runs, its item is linked or it is on the list; and for a handle's timer exactly when
      both the callback and nvkms_free_timer have happened, in either order. */
  lemma ReleasedOnce(tr: seq<State>, t: nat)
    requires Run(tr) && t < |tr[|tr| - 1].timers|
    ensures var s := tr[|tr| - 1]; var x := s.timers[t];
      && x.released <= 1
      && (x.kernel.Pending? || HandlerRunning(x.kernel) || t in s.queue || t in s.list ==> x.released == 0)
      && (x.work.Finished? ==> x.released == (if x.isRef || x.handleFreed then 1 else 0))
      && (x.released == 1 && !x.isRef ==> x.handleFreed)
      && (x.released == 1 ==> x.work.Finished? || x.work == Active(Unlock) || x.work.Drained?)
  {
    RunInv(tr);
    assert At(tr[|tr| - 1], t);
  }

  /** A step that works on a timer finds its memory still there. */
  lemma NoUseAfterRelease(tr: seq<State>, l: Label, t: nat)
    requires Run(tr) && Enabled(tr[|tr| - 1], l) && Subject(tr[|tr| - 1], l) == Some(t)
    ensures t < |tr[|tr| - 1].timers|
    ensures l.CbUnlock? || tr[|tr| - 1].timers[t].released == 0
  {
    RunInv(tr);
    assert At(tr[|tr| - 1], t);
  }

  /** Queueing a timer's item never fails: it is not linked yet, and the queue is not being stopped. */
  lemma QueueingSucceeds(tr: seq<State>, t: nat)
    requires Run(tr) && Enabled(tr[|tr| - 1], HandlerQueue(t))
    ensures var s := tr[|tr| - 1]; t !in s.queue && !s.exit.Stopping? && !s.exit.Stopped? && !s.requeued
  {
    RunInv(tr);
    assert At(tr[|tr| - 1], t);
  }

  /** `nvkms_lock` excludes: a caller that holds it is alone, and the callback decides, runs its proc and
      releases only while no caller holds it. */
  lemma MutualExclusion(tr: seq<State>)
    requires Run(tr)
    ensures var s := tr[|tr| - 1];
      s.callers + (if s.worker.Some? && s.worker.value < |s.timers|
                      && s.timers[s.worker.value].work.Active? && HoldsLock(s.timers[s.worker.value].work.pc)
                   then 1 else 0) <= 1
  {
    RunInv(tr);
  }

  function KernelRank(k: KernelTimer): nat {
    match k
    case Pending => 3
    case HandlerStart => 2
    case HandlerEnd => 1
    case _ => 0
  }

  function WorkRank(w: Work): nat {
    match w
    case Unqueued => 10
    case Linked => 9
    case Active(pc) =>
      (match pc
       case Unlink => 8
       case DeleteSync => 7
       case TakeLock => 6
       case Decide => 5
       case InProc => 4
       case Release => 3
       case Unlock => 2)
    case Draining => 1
    case Finished => 0
    case Drained => 0
  }

  /** How far a timer is from the end of its life. */
  function TimerRank(x: Timer): nat { KernelRank(x.kernel) + WorkRank(x.work) }

  lemma CallbackAdvances(s: State, l: Label, t: nat)
    requires Enabled(s, l) && CallbackLabel(l) && s.worker == Some(t) && t < |s.timers|
    ensures TimerRank(Apply(s, l).timers[t]) < TimerRank(s.timers[t])
  {}

  lemma KernelAdvances(s: State, l: Label, t: nat)
    requires Enabled(s, l) && !CallbackLabel(l) && !l.FreeTimer? && Subject(s, l) == Some(t)
    requires t < |s.timers| && At(s, t) && !s.requeued && (l.HandlerQueue? ==> t !in s.queue)
    ensures TimerRank(Apply(s, l).timers[t]) < TimerRank(s.timers[t])
            || (l.DrainScan? && Apply(s, l).timers[t] == s.timers[t] && !s.timers[t].kernel.Pending?)
  {}

  /** Every timer comes to its end: a step that works on it brings it closer, unless it is the freeing
      of its handle or the drain passing over a timer that is not pending; other steps leave it. */
  lemma TimersEnd(tr: seq<State>, l: Label, t: nat)
    requires Run(tr) && Enabled(tr[|tr| - 1], l) && t < |tr[|tr| - 1].timers| && !l.FreeTimer?
    ensures var s := tr[|tr| - 1]; var x, x' := s.timers[t], Apply(s, l).timers[t];
      if Subject(s, l) == Some(t) && !(l.DrainScan? && !x.kernel.Pending?)
      then TimerRank(x') < TimerRank(x) else x' == x
  {
    RunInv(tr);
    var s := tr[|tr| - 1];
    assert At(s, t);
    if Subject(s, l) == Some(t) {
      if CallbackLabel(l) {
        CallbackAdvances(s, l, t);
      } else {
        KernelAdvances(s, l, t);
      }
    } else {
      OthersUntouched(s, l, t);
    }
  }

  lemma OthersUntouched(s: State, l: Label, t: nat)
    requires Enabled(s, l) && t < |s.timers| && Subject(s, l) != Some(t)
    ensures Apply(s, l).timers[t] == s.timers[t]
  {}

  /** Once module exit has begun, no timer is allocated. */
  predicate Exiting(s: State, n: nat) { !s.exit.NotExiting? && |s.timers| == n }

  lemma ExitingStep(s: State, l: Label, n: nat)
    requires Enabled(s, l) && Exiting(s, n)
    ensures Exiting(Apply(s, l), n)
  {}

  lemma ExitingAt(tr: seq<State>, j: nat, n: nat)
    requires Run(tr) && 0 < j < |tr| && Exiting(tr[j - 1], n)
    ensures Exiting(tr[j], n)
  {
    assert Next(tr[j - 1], tr[j]);
    var l :| Enabled(tr[j - 1], l) && tr[j] == Apply(tr[j - 1], l);
    ExitingStep(tr[j - 1], l, n);
  }

  lemma {:induction false} ExitingStays(tr: seq<State>, i: nat, j: nat, n: nat)
    requires i <= j < |tr| && Exiting(tr[i], n)
    requires forall k :: i < k < |tr| && Exiting(tr[k - 1], n) ==> Exiting(tr[k], n)
    ensures Exiting(tr[j], n)
    decreases j
  {
    if i < j {
      ExitingStays(tr, i, j - 1, n);
    }
  }

  lemma NoneAfterExit(tr: seq<State>, i: nat)
    requires Run(tr) && i + 1 < |tr| && Enabled(tr[i], BeginExit) && tr[i + 1] == Apply(tr[i], BeginExit)
    ensures |tr[|tr| - 1].timers| == |tr[i].timers| && !tr[|tr| - 1].exit.NotExiting?
  {
    var n := |tr[i].timers|;
    forall k | i + 1 < k < |tr| && Exiting(tr[k - 1], n) ensures Exiting(tr[k], n) {
      ExitingAt(tr, k, n);
    }
    ExitingStays(tr, i + 1, |tr| - 1, n);
  }

  /** A proc starts at most once, never after its handle was freed, and for a timer allocated on a
      ref_ptr exactly when the owner has not cleared the pointer. */
  lemma ProcStarts(tr: seq<State>)
    requires Run(tr) && Enabled(tr[|tr| - 1], CbDecide)
    ensures var s := tr[|tr| - 1]; var t := s.worker.value;
      && t < |s.allocs| && (s.allocs[t].Some? ==> s.allocs[t].value < |s.refs|)
      && s.timers[t].procRuns == 0
      && (Apply(s, CbDecide).timers[t].procRuns == 1 <==>
            if s.allocs[t].Some? then s.refs[s.allocs[t].value].live else !s.timers[t].handleFreed)
  {
    RunInv(tr);
    var s := tr[|tr| - 1];
    assert At(s, s.worker.value) && KindOk(s.allocs[s.worker.value], s.timers[s.worker.value]);
  }

  /** Once the owner has freed a ref_ptr, no proc of a timer allocated on it starts. */
  lemma NoProcAfterOwner(tr: seq<State>)
    requires Run(tr) && Enabled(tr[|tr| - 1], CbDecide)
    ensures var s := tr[|tr| - 1]; var t := s.worker.value;
      && t < |s.allocs|
      && (s.allocs[t].Some? && s.allocs[t].value in s.freed ==> Apply(s, CbDecide).timers[t].procRuns == 0)
  {
    ProcStarts(tr);
    RunInv(tr);
    assert At(tr[|tr| - 1], tr[|tr| - 1].worker.value);
  }

  /** The count of a ref_ptr is one for a live owner plus one per timer still to drop its
      reference, and the object is released exactly when the count is zero. */
  lemma RefCounting(tr: seq<State>, r: nat)
    requires Run(tr) && r < |tr[|tr| - 1].refs|
    ensures var s := tr[|tr| - 1]; var p := s.refs[r];
      && p.count == (if p.live then 1 else 0) + Outstanding(s.timers, r)
      && p.released == (if p.count == 0 then 1 else 0)
  {
    RunInv(tr);
    assert RefOk(tr[|tr| - 1], r);
  }

  /** The step that the running callback takes next. */
  function CallbackNext(pc: CallbackPc): Label {
    match pc
    case Unlink => CbUnlink
    case DeleteSync => CbDeleteSync
    case TakeLock => CbTakeLock
    case Decide => CbDecide
    case InProc => CbProcEnd
    case Release => CbRelease
    case Unlock => CbUnlock
  }

  /** The callback waits for nothing but the drain's lock, its timer's running handler, which can go
      on, and a caller that holds `nvkms_lock`; a linked item is taken when no callback runs. */
  lemma CallbackGoesOn(tr: seq<State>)
    requires Run(tr)
    ensures var s := tr[|tr| - 1];
      && (s.worker.None? && s.queue != [] ==> Enabled(s, Take))
      && (s.worker.Some? ==>
            var t := s.worker.value;
            && t < |s.timers| && s.timers[t].work.Active?
            && (Enabled(s, CallbackNext(s.timers[t].work.pc))
                || (s.timers[t].work.pc.Unlink? && s.exit.Scan?)
                || (s.timers[t].work.pc.DeleteSync? && Enabled(s, HandlerReturn(t)))
                || (s.timers[t].work.pc.TakeLock? && Enabled(s, CallerUnlock))))
  {
    RunInv(tr);
    var s := tr[|tr| - 1];
    if s.worker.Some? {
      assert At(s, s.worker.value);
    } else if s.queue != [] {
      assert s.queue[0] in s.queue;
    }
  }

  /** Before exit, timers can be allocated, a handle not yet freed can be freed by whoever holds
      `nvkms_lock`, a pending kernel timer can fire, and its handler can go on. */
  lemma CallsGoOn(tr: seq<State>, t: nat, r: nat, immediate: bool)
    requires Run(tr) && t < |tr[|tr| - 1].timers|
    ensures var s := tr[|tr| - 1]; var x := s.timers[t];
      && (s.exit.NotExiting? ==> Enabled(s, AllocTimer(immediate)))
      && (s.exit.NotExiting? && r < |s.refs| && s.refs[r].live ==> Enabled(s, AllocRefTimer(r, immediate)))
      && (s.exit.NotExiting? && s.lock.ByCaller? && !x.isRef && !x.handleFreed ==> Enabled(s, FreeTimer(t)))
      && (x.kernel.Pending? ==> Enabled(s, KernelFire(t)))
      && (x.kernel.HandlerStart? ==> Enabled(s, HandlerQueue(t)))
      && (x.kernel.HandlerEnd? ==> Enabled(s, HandlerReturn(t)))
  {
    RunInv(tr);
    assert At(tr[|tr| - 1], t);
  }

  // Module exit

  /** The drain waits for nothing but the running handler of the timer it looks at, which can go on. */
  lemma DrainGoesOn(tr: seq<State>)
    requires Run(tr)
    ensures var s := tr[|tr| - 1];
      match s.exit
      case Scan(i) =>
        Enabled(s, DrainEnd)
        || (i < |s.list| && (Enabled(s, DrainScan) || Enabled(s, HandlerQueue(s.list[i]))
                             || Enabled(s, HandlerReturn(s.list[i]))))
      case Freeing(_) => Enabled(s, DrainFree)
      case Restart => Enabled(s, DrainRestart)
      case Stopping => s.queue == [] && s.worker.None? ==> Enabled(s, StopQueue)
      case _ => true
  {
    RunInv(tr);
    var s := tr[|tr| - 1];
    if s.exit.Freeing? {
      assert At(s, s.exit.t);
    } else if s.exit.Scan? && s.exit.i < |s.list| {
      assert s.list[s.exit.i] in s.list;
    }
  }

  /** Lexicographic measure of the drain: timers still linked, then the steps left in this pass. */
  function DrainRank(s: State): (nat, nat) {
    (|s.list|,
     match s.exit
     case Freeing(_) => |s.list| + 2
     case Restart => |s.list| + 1
     case Scan(i) => if i <= |s.list| then |s.list| - i else 0
     case _ => 0)
  }

  predicate Below(a: (nat, nat), b: (nat, nat)) {
    a.0 < b.0 || (a.0 == b.0 && a.1 < b.1)
  }

  predicate DrainLabel(l: Label) { l.DrainScan? || l.DrainFree? || l.DrainRestart? }

  lemma DrainLowers(s: State, l: Label)
    requires Enabled(s, l) && ExitOk(s) && (s.exit.Scan? || s.exit.Freeing? || s.exit.Restart?) && !l.DrainEnd?
    ensures var s' := Apply(s, l);
      if DrainLabel(l) then Below(DrainRank(s'), DrainRank(s))
      else DrainRank(s') == DrainRank(s) || Below(DrainRank(s'), DrainRank(s))
  {
    if l.DrainScan? {
      RemoveMembers(s.list, s.list[s.exit.i]);
    } else if l.CbUnlink? {
      RemoveMembers(s.list, s.worker.value);
    }
  }

  /** The restart loop terminates: each of its steps lowers the rank, and no step of anyone else
      raises it. */
  lemma DrainTerminates(tr: seq<State>, l: Label)
    requires Run(tr) && Enabled(tr[|tr| - 1], l)
    requires var s := tr[|tr| - 1]; s.exit.Scan? || s.exit.Freeing? || s.exit.Restart?
    requires !l.DrainEnd?
    ensures var s := tr[|tr| - 1]; var s' := Apply(s, l);
      if DrainLabel(l) then Below(DrainRank(s'), DrainRank(s))
      else DrainRank(s') == DrainRank(s) || Below(DrainRank(s'), DrainRank(s))
  {
    RunInv(tr);
    DrainLowers(tr[|tr| - 1], l);
  }

  lemma StoppedReleasedAll(s: State)
    requires Inv(s) && s.exit.Stopped?
    ensures s.list == [] && s.queue == []
    ensures forall t :: 0 <= t < |s.timers| ==>
      s.timers[t].released == 1 && (s.timers[t].work.Finished? || s.timers[t].work.Drained?)
  {
    assert s.list != [] ==> s.list[0] in s.list && At(s, s.list[0]);
    forall t | 0 <= t < |s.timers|
      ensures s.timers[t].released == 1 && (s.timers[t].work.Finished? || s.timers[t].work.Drained?)
    {
      assert At(s, t);
    }
  }

  /** Once module exit has stopped the queue, every timer has been released exactly once, by the
      drain, by its callback or by its handle's free, and none is linked anywhere. */
  lemma ExitReleasesAll(tr: seq<State>)
    requires Run(tr) && tr[|tr| - 1].exit.Stopped?
    ensures var s := tr[|tr| - 1];
      && s.list == [] && s.queue == []
      && forall t :: 0 <= t < |s.timers| ==>
           s.timers[t].released == 1 && (s.timers[t].work.Finished? || s.timers[t].work.Drained?)
  {
    RunInv(tr);
    StoppedReleasedAll(tr[|tr| - 1]);
  }

  // The code in place

  /** What del_timer_sync leaves of a timer whose handler was running. */
  function AwaitedTimer(x: Timer): Timer {
    if x.kernel.HandlerStart? then x.(kernel := Idle, work := Linked)
    else if x.kernel.HandlerEnd? then x.(kernel := Idle)
    else x
  }

  /** What the drain leaves of a timer that had not fired. */
  function CaughtTimer(x: Timer): Timer {
    x.(kernel := Idle, work := Drained, released := x.released + 1)
  }

  function TurnedTimer(x: Timer): Timer {
    if x.kernel.Pending? then CaughtTimer(x) else AwaitedTimer(x)
  }

  predicate DrainedFrom(x: Timer, x': Timer) {
    if x.kernel.Pending? then x' == x || x' == CaughtTimer(x) else x' == x || x' == AwaitedTimer(x)
  }

  predicate AllDrainedFrom(before: seq<Timer>, after: seq<Timer>) {
    |before| == |after| && forall t :: 0 <= t < |before| ==> DrainedFrom(before[t], after[t])
  }

  lemma TurnKeepsDrained(before: seq<Timer>, after: seq<Timer>, t: nat)
    requires AllDrainedFrom(before, after) && t < |after|
    ensures AllDrainedFrom(before, after[t := TurnedTimer(after[t])])
  {
    assert DrainedFrom(before[t], after[t]);
  }

  function AfterAwait(s: State, t: nat): State
    requires t < |s.timers|
  {
    Set(s, t, AwaitedTimer(s.timers[t]))
      .(queue := if s.timers[t].kernel.HandlerStart? then s.queue + [t] else s.queue)
  }

  function AfterCatch(s: State, t: nat): State
    requires t < |s.timers| && (s.timers[t].isRef ==> s.timers[t].ref < |s.refs|)
  {
    var x := s.timers[t];
    Set(s, t, CaughtTimer(x)).(
      list := Remove(s.list, t), exit := Scan(0),
      refs := if x.isRef then s.refs[x.ref := DecRef(s.refs[x.ref])] else s.refs)
  }

  ghost predicate Path(tr: seq<State>) {
    |tr| > 0 && forall i :: 0 < i < |tr| ==> Next(tr[i - 1], tr[i])
  }

  lemma Extend(tr: seq<State>, l: Label) returns (tr': seq<State>)
    requires Path(tr) && Enabled(tr[|tr| - 1], l)
    ensures Path(tr') && tr'[0] == tr[0] && tr'[|tr'| - 1] == Apply(tr[|tr| - 1], l)
  {
    tr' := tr + [Apply(tr[|tr| - 1], l)];
  }

  lemma {:induction false} PathInv(tr: seq<State>)
    requires Path(tr) && Inv(tr[0])
    ensures Inv(tr[|tr| - 1])
  {
    var n := |tr| - 1;
    if n > 0 {
      PathInv(tr[..n]);
      StepInv(tr[n - 1], tr[n]);
    }
  }

  lemma AwaitPath(s: State, t: nat) returns (tr: seq<State>)
    requires t < |s.timers| && At(s, t)
    ensures Path(tr) && tr[0] == s && tr[|tr| - 1] == AfterAwait(s, t)
  {
    tr := [s];
    if s.timers[t].kernel.HandlerStart? {
      tr := Extend(tr, HandlerQueue(t));
    }
    if tr[|tr| - 1].timers[t].kernel.HandlerEnd? {
      tr := Extend(tr, HandlerReturn(t));
    }
  }

  /** The drain has deactivated a timer and unlocked. */
  function Deactivated(s: State, t: nat): State
    requires t < |s.timers|
  {
    Set(s, t, s.timers[t].(kernel := Idle, work := Draining))
      .(list := Remove(s.list, t), exit := Freeing(t))
  }

  lemma FreePath(tr0: seq<State>, s: State, t: nat) returns (tr: seq<State>)
    requires Path(tr0) && t < |s.timers| && tr0[|tr0| - 1] == Deactivated(s, t)
    requires s.timers[t].isRef ==> s.timers[t].ref < |s.refs|
    ensures Path(tr) && tr[0] == tr0[0] && tr[|tr| - 1] == AfterCatch(s, t)
  {
    tr := Extend(tr0, DrainFree);
    tr := Extend(tr, DrainRestart);
  }

  lemma CatchPath(s: State, t: nat) returns (tr: seq<State>)
    requires Enabled(s, DrainScan) && t == s.list[s.exit.i] && s.timers[t].kernel.Pending?
    requires s.timers[t].isRef ==> s.timers[t].ref < |s.refs|
    ensures Path(tr) && tr[0] == s && tr[|tr| - 1] == AfterCatch(s, t)
  {
    tr := Extend([s], DrainScan);
    tr := FreePath(tr, s, t);
  }

  /** What the callback leaves of its timer; `selfFree` is whether the proc frees its own handle. */
  function CalledTimer(x: Timer, ownerLive: bool, selfFree: bool): Timer {
    var runs := !x.cancel && (x.isRef ==> ownerLive);
    var cancel := !runs || selfFree;
    x.(kernel := if x.kernel.NotCreated? then NotCreated else Idle, work := Finished,
       cancel := cancel, complete := x.complete || runs,
       handleFreed := x.handleFreed || (runs && selfFree),
       procRuns := x.procRuns + if runs then 1 else 0,
       released := x.released + if x.isRef || cancel then 1 else 0)
  }

  predicate Callable(s: State) {
    && s.queue != [] && s.queue[0] < |s.timers| && s.worker.None? && s.lock.Unlocked?
    && (s.timers[s.queue[0]].isRef ==> s.timers[s.queue[0]].ref < |s.refs|)
  }

  function AfterCallback(s: State, selfFree: bool): State
    requires Callable(s)
  {
    var t := s.queue[0];
    var x := s.timers[t];
    Set(s, t, CalledTimer(x, x.isRef && s.refs[x.ref].live, selfFree)).(
      list := Remove(s.list, t), queue := s.queue[1..],
      refs := if x.isRef then s.refs[x.ref := DecRef(s.refs[x.ref])] else s.refs)
  }

  // The callback in stages, each a path of the machine

  function Unlinked(s: State, t: nat): State
    requires t < |s.timers| && s.queue != []
  {
    Set(s, t, s.timers[t].(work := Active(DeleteSync)))
      .(list := Remove(s.list, t), queue := s.queue[1..], worker := Some(t))
  }

  lemma UnlinkPath(tr0: seq<State>, s: State, t: nat) returns (tr: seq<State>)
    requires Path(tr0) && tr0[|tr0| - 1] == s && Callable(s) && !s.exit.Scan? && t == s.queue[0]
    ensures Path(tr) && tr[0] == tr0[0] && tr[|tr| - 1] == Unlinked(s, t)
  {
    tr := Extend(tr0, Take);
    tr := Extend(tr, CbUnlink);
  }

  function LockedTimer(x: Timer): Timer {
    x.(kernel := if x.kernel.NotCreated? then NotCreated else Idle, work := Active(Decide))
  }

  function Locked(s: State, t: nat): State
    requires t < |s.timers|
  {
    Set(s, t, LockedTimer(s.timers[t])).(lock := ByWorker)
  }

  lemma LockPath(tr0: seq<State>, s: State, t: nat) returns (tr: seq<State>)
    requires Path(tr0) && tr0[|tr0| - 1] == s && WorkerAt(s, DeleteSync) && t == s.worker.value
    requires s.lock.Unlocked? && !HandlerRunning(s.timers[t].kernel)
    ensures Path(tr) && tr[0] == tr0[0] && tr[|tr| - 1] == Locked(s, t)
  {
    tr := Extend(tr0, CbDeleteSync);
    tr := Extend(tr, CbTakeLock);
  }

  function Decided(s: State, t: nat): State
    requires t < |s.timers| && (s.timers[t].isRef ==> s.timers[t].ref < |s.refs|)
  {
    var x := s.timers[t];
    Set(s, t, DecideTimer(x, x.isRef && s.refs[x.ref].live)).(
      refs := if x.isRef then s.refs[x.ref := DecRef(s.refs[x.ref])] else s.refs)
  }

  lemma DecidePath(tr0: seq<State>, s: State, t: nat) returns (tr: seq<State>)
    requires Path(tr0) && tr0[|tr0| - 1] == s && WorkerAt(s, Decide) && t == s.worker.value
    requires s.timers[t].isRef ==> s.timers[t].ref < |s.refs|
    ensures Path(tr) && tr[0] == tr0[0] && tr[|tr| - 1] == Decided(s, t)
  {
    tr := Extend(tr0, CbDecide);
  }

  /** The proc, if any, has returned, possibly after freeing its own timer's handle. */
  function ProceededTimer(x: Timer, selfFree: bool): Timer {
    if x.work == Active(InProc)
    then x.(work := Active(Release), complete := true, cancel := x.cancel || selfFree,
            handleFreed := x.handleFreed || selfFree)
    else x
  }

  function Proceeded(s: State, t: nat, selfFree: bool): State
    requires t < |s.timers|
  {
    Set(s, t, ProceededTimer(s.timers[t], selfFree))
  }

  lemma ProcPath(tr0: seq<State>, s: State, t: nat, selfFree: bool) returns (tr: seq<State>)
    requires Path(tr0) && tr0[|tr0| - 1] == s && s.worker == Some(t) && t < |s.timers|
    requires selfFree ==> s.exit.NotExiting? && !s.timers[t].isRef
    requires s.timers[t].work == Active(InProc) ==>
      !s.timers[t].complete && (selfFree ==> !s.timers[t].handleFreed)
    ensures Path(tr) && tr[0] == tr0[0] && tr[|tr| - 1] == Proceeded(s, t, selfFree)
  {
    tr := tr0;
    if s.timers[t].work == Active(InProc) {
      if selfFree {
        tr := Extend(tr, FreeTimer(t));
      }
      tr := Extend(tr, CbProcEnd);
    }
  }

  function ReleasedBy(s: State, t: nat): State
    requires t < |s.timers|
  {
    Set(s, t, ReleaseTimer(s.timers[t]).(work := Finished)).(worker := None, lock := Unlocked)
  }

  lemma ReleasePath(tr0: seq<State>, s: State, t: nat) returns (tr: seq<State>)
    requires Path(tr0) && tr0[|tr0| - 1] == s && WorkerAt(s, Release) && t == s.worker.value
    ensures Path(tr) && tr[0] == tr0[0] && tr[|tr| - 1] == ReleasedBy(s, t)
  {
    tr := Extend(tr0, CbRelease);
    tr := Extend(tr, CbUnlock);
  }

  lemma CalledShape(x: Timer, live: bool, selfFree: bool)
    requires TimerOk(x) && x.work.Linked?
    ensures var y := DecideTimer(LockedTimer(AwaitedTimer(x).(work := Active(DeleteSync))), live);
      ReleaseTimer(ProceededTimer(y, selfFree)).(work := Finished) == CalledTimer(x, live, selfFree)
  {}

  lemma CallbackShape(s: State, t: nat, selfFree: bool)
    requires Callable(s) && t == s.queue[0] && At(s, t)
    ensures var s1 := Decided(Locked(Unlinked(AfterAwait(s, t), t), t), t);
      ReleasedBy(Proceeded(s1, t, selfFree), t) == AfterCallback(s, selfFree)
  {
    var x := s.timers[t];
    CalledShape(x, x.isRef && s.refs[x.ref].live, selfFree);
    var s1 := Locked(Unlinked(AfterAwait(s, t), t), t);
    assert s1.timers == s.timers[t := LockedTimer(AwaitedTimer(x).(work := Active(DeleteSync)))];
    assert s1.queue == s.queue[1..] && s1.refs == s.refs;
  }

  /** The whole callback is a path of the machine. */
  lemma CallbackPath(s: State, selfFree: bool) returns (tr: seq<State>)
    requires Callable(s) && !s.exit.Scan? && At(s, s.queue[0])
    requires selfFree ==> s.exit.NotExiting? && !s.timers[s.queue[0]].isRef
    ensures Path(tr) && tr[0] == s && tr[|tr| - 1] == AfterCallback(s, selfFree)
  {
    var t := s.queue[0];
    tr := AwaitPath(s, t);
    var s1 := AfterAwait(s, t);
    tr := UnlinkPath(tr, s1, t);
    var s2 := Unlinked(s1, t);
    tr := LockPath(tr, s2, t);
    var s3 := Locked(s2, t);
    tr := DecidePath(tr, s3, t);
    var s4 := Decided(s3, t);
    tr := ProcPath(tr, s4, t, selfFree);
    tr := ReleasePath(tr, Proceeded(s4, t, selfFree), t);
    CallbackShape(s, t, selfFree);
  }

  /** The callback in place keeps the invariant, runs the proc exactly when the timer was not
      cancelled, and releases the timer exactly when it is a ref timer or its handle is free by the
      end. */
  lemma CallbackInv(s: State, selfFree: bool)
    requires Inv(s) && Callable(s) && !s.exit.Scan?
    requires selfFree ==> s.exit.NotExiting? && !s.timers[s.queue[0]].isRef
    ensures Inv(AfterCallback(s, selfFree))
    ensures var x, x' := s.timers[s.queue[0]], AfterCallback(s, selfFree).timers[s.queue[0]];
      && x'.released == (if x'.isRef || x'.handleFreed then 1 else 0)
      && (x'.procRuns == 1 <==> if x.isRef then s.refs[x.ref].live else !x.handleFreed)
  {
    assert At(s, s.queue[0]);
    var tr := CallbackPath(s, selfFree);
    PathInv(tr);
  }

  lemma AwaitInv(s: State, t: nat)
    requires Inv(s) && t < |s.timers|
    ensures Inv(AfterAwait(s, t))
  {
    assert At(s, t);
    var tr := AwaitPath(s, t);
    PathInv(tr);
  }

  lemma CatchInv(s: State, t: nat)
    requires Inv(s) && Enabled(s, DrainScan) && t == s.list[s.exit.i] && s.timers[t].kernel.Pending?
    requires s.timers[t].isRef ==> s.timers[t].ref < |s.refs|
    ensures Inv(AfterCatch(s, t))
  {
    var tr := CatchPath(s, t);
    PathInv(tr);
  }

  lemma PassInv(s: State, i: nat)
    requires Inv(s) && s.exit == Scan(i) && i < |s.list| && s.list[i] < |s.timers|
    requires !s.timers[s.list[i]].kernel.Pending? && !HandlerRunning(s.timers[s.list[i]].kernel)
    ensures Inv(s.(exit := Scan(i + 1)))
  {
    ApplyInv(s, DrainScan);
  }

  lemma TurnInv(s: State, i: nat)
    requires Inv(s) && s.exit == Scan(i) && i < |s.list|
    ensures var t := s.list[i];
      && t < |s.timers| && (s.timers[t].isRef ==> s.timers[t].ref < |s.refs|)
      && Inv(AfterAwait(s, t))
      && (s.timers[t].kernel.Pending? ==> Inv(AfterCatch(s, t)))
      && (!s.timers[t].kernel.Pending? ==> Inv(AfterAwait(s, t).(exit := Scan(i + 1))))
  {
    var t := s.list[i];
    assert t in s.list && At(s, t);
    AwaitInv(s, t);
    if s.timers[t].kernel.Pending? {
      CatchInv(s, t);
    } else {
      PassInv(AfterAwait(s, t), i);
    }
  }

  lemma DrainEnds(s: State)
    requires Inv(s) && Enabled(s, DrainEnd)
    ensures Inv(s.(exit := Stopping)) && forall t :: 0 <= t < |s.timers| ==> !s.timers[t].kernel.Pending?
  {
    ApplyInv(s, DrainEnd);
    forall t | 0 <= t < |s.timers| ensures !s.timers[t].kernel.Pending? {
      assert At(s.(exit := Stopping), t);
    }
  }

  /** The timers and ref_ptrs of the module, while one thread works on them. */
  class TimerTable {
    var timers: seq<Timer>
    var refs: seq<RefPtr>
    var list: seq<nat>
    var queue: seq<nat>
    ghost var allocs: seq<Option<nat>>
    ghost var freed: set<nat>

    ghost function View(exit: ExitPc): State
      reads this
    {
      State(timers, refs, list, queue, None, Unlocked, exit, false, allocs, freed, 0)
    }

    /** nvkms_kthread_q_callback for the item at the head of the queue. */
    method Callback(selfFree: bool)
      requires Callable(View(NotExiting)) && !timers[queue[0]].complete
      modifies this
      ensures View(NotExiting) == AfterCallback(old(View(NotExiting)), selfFree)
    {
      var t := queue[0];
      queue := queue[1..];
      list := Remove(list, t);
      var x := timers[t];
      if !x.kernel.NotCreated? {
        x := x.(kernel := Idle);
      }
      if x.isRef {
        var live := refs[x.ref].live;
        refs := refs[x.ref := DecRef(refs[x.ref])];
        if !live {
          x := x.(cancel := true);
        }
      }
      if !x.cancel {
        x := x.(procRuns := x.procRuns + 1);
        if selfFree {
          x := FreeHandle(x);
        }
        x := x.(complete := true);
      }
      timers := timers[t := ReleaseTimer(x).(work := Finished)];
    }

    /** One timer of the restart loop, with the wait of del_timer_sync for a running handler. */
    method DrainTurn(i: nat) returns (next: nat)
      requires Inv(View(Scan(i))) && i < |list|
      modifies this
      ensures next <= |list| && Inv(View(Scan(next)))
      ensures old(list[i]) < |old(timers)|
      ensures var t := old(list[i]); timers == old(timers)[t := TurnedTimer(old(timers)[t])]
      ensures |list| < |old(list)| || (|list| == |old(list)| && next == i + 1)
    {
      TurnInv(View(Scan(i)), i);
      var t := list[i];
      if timers[t].kernel.Pending? {
        RemoveMembers(list, t);
        list := Remove(list, t);
        if timers[t].isRef {
          refs := refs[timers[t].ref := DecRef(refs[timers[t].ref])];
        }
        timers := timers[t := CaughtTimer(timers[t])];
        next := 0;
      } else {
        if timers[t].kernel.HandlerStart? {
          queue := queue + [t];
        }
        timers := timers[t := AwaitedTimer(timers[t])];
        next := i + 1;
      }
    }

    /** The restart loop of nvkms_exit by itself: every timer that had not fired is released here,
        once, and the others are left to their callbacks. */
    method Drain()
      requires Inv(View(Scan(0)))
      modifies this
      ensures Inv(View(Stopping)) && |timers| == |old(timers)|
      ensures forall t :: 0 <= t < |timers| ==>
        && !timers[t].kernel.Pending?
        && if old(timers)[t].kernel.Pending? then timers[t] == CaughtTimer(old(timers)[t])
           else timers[t] == old(timers)[t] || timers[t] == AwaitedTimer(old(timers)[t])
    {
      var i := 0;
      while i < |list|
        invariant 0 <= i <= |list| && Inv(View(Scan(i))) && AllDrainedFrom(old(timers), timers)
        decreases |list|, |list| - i
      {
        ghost var before := timers;
        ghost var t := list[i];
        i := DrainTurn(i);
        TurnKeepsDrained(old(timers), before, t);
      }
      DrainEnds(View(Scan(i)));
    }
  }
}
