/**
 The waiter protocol of a semaphore-surface fence context (nvidia-drm-fence.c), over every
 interleaving of ioctl threads adding fences, callbacks fired by the resource manager (RM),
 queued work, timeouts, and the destruction of the context.

 A thread is identified by its index in `threads`. A thread registers at most one callback, so
 its index also names that callback. Reading the semaphore, the region under `ctx->lock`,
 signalling each fence, and each call into RM are separate steps.
 */
module SemsurfProtocol {
  import opened Base
  import opened SemsurfContext

  /** A registered callback: waiting in RM, fired but not yet past its locked region, past it, or
      cancelled. */
  datatype Status = Registered | Firing | Fired | Cancelled
  datatype Reg = Reg(value: nat, status: Status)

  /** What a look at the pending list went by: the value it had sampled and the time. */
  datatype Look = Look(cur: nat, now: nat)

  datatype Pc =
    // __nv_drm_semsurf_ctx_add_pending before it takes the lock
    | AddPending(seqno: nat, deadline: nat)
    // __nv_drm_semsurf_ctx_reg_callbacks; `retry` is the value answered "already signalled"
    | Sample(retry: nat)
    | Sampled(cur: nat, now: nat, retry: nat)
    | Signal(finished: seq<Fence>, timedOut: seq<Fence>, newWait: nat, newTimeout: nat, look: Look)
    | Register(newWait: nat, newTimeout: nat)
    | SetTimer(newWait: nat, newTimeout: nat)
    | Store(newWait: nat)
    | UnregisterOld(old_: nat)
    | UnregisterNew
    // __nv_drm_semsurf_ctx_callback
    | CbLock(cb: nat)
    | CbSample
    | CbSampled(cur: nat, now: nat)
    | CbSignal(finished: seq<Fence>, timedOut: seq<Fence>, look: Look)
    | CbQueue
    | Done

  /** A fence that has been signalled, without or with an error, and has lost the list's reference.
      `look` is the look that took it off the list; there is none when the context is destroyed. */
  datatype Retired = Retired(fence: Fence, ok: bool, look: Option<Look>)

  datatype Phase = Live | Closing | Destroyed

  datatype State = State(
    sem: nat,                // the semaphore's true value
    clock: nat,
    ctx: Ctx,
    threads: seq<Pc>,
    regs: map<nat, Reg>,     // callbacks by the thread that registered them
    timer: Option<nat>,      // when the context's timer is set to go off
    phase: Phase,
    failed: bool,            // an allocation or a registration has failed
    added: seq<Fence>,       // every fence put on the list so far
    retired: seq<Retired>
  )

  datatype Label =
    | Advance(v: nat)
    | Tick(c: nat)
    | NewFence(seqno: nat, deadline: nat)
    | TimeoutWork
    | InsertFence(t: nat)
    | AllocFail(t: nat)
    | DoSample(t: nat, is32: bool, maxSubmitted: nat)
    | DoProcess(t: nat)
    | SignalOne(t: nat)
    | SignalEnd(t: nat)
    | RegSuccess(t: nat)
    | RegAlready(t: nat)
    | RegFail(t: nat)
    | DoSetTimer(t: nat)
    | DoStore(t: nat)
    | DoUnregister(t: nat)
    | Fire(cb: nat)
    | DoCbLock(t: nat)
    | DoCbQueue(t: nat)
    | Close
    | Destroy

  const Init: State := State(0, 0, Ctx([], 0, None), [], map[], None, Live, false, [], [])

  predicate AllDone(ths: seq<Pc>) {
    forall t :: 0 <= t < |ths| ==> ths[t].Done?
  }

  predicate Enabled(s: State, l: Label) {
    match l
    case Advance(v) => s.sem <= v < TWO_64
    case Tick(c) => s.clock <= c
    case NewFence(seqno, _) => s.phase.Live? && seqno < TWO_64
    case TimeoutWork => s.phase.Live? && s.timer.Some? && s.timer.value <= s.clock
    case InsertFence(t) => t < |s.threads| && s.threads[t].AddPending?
    case AllocFail(t) => t < |s.threads| && s.threads[t] == Sample(0)
    case DoSample(t, _, maxSubmitted) =>
      && t < |s.threads| && (s.threads[t].Sample? || s.threads[t].CbSample?)
      && s.sem < TWO_64 && maxSubmitted < TWO_64 && InWindow(maxSubmitted, s.sem)
    case DoProcess(t) => t < |s.threads| && (s.threads[t].Sampled? || s.threads[t].CbSampled?)
    case SignalOne(t) =>
      && t < |s.threads| && (s.threads[t].Signal? || s.threads[t].CbSignal?)
      && s.threads[t].finished + s.threads[t].timedOut != []
    case SignalEnd(t) =>
      && t < |s.threads| && (s.threads[t].Signal? || s.threads[t].CbSignal?)
      && s.threads[t].finished + s.threads[t].timedOut == []
    case RegSuccess(t) => t < |s.threads| && s.threads[t].Register? && s.sem < s.threads[t].newWait
    case RegAlready(t) => t < |s.threads| && s.threads[t].Register? && s.threads[t].newWait <= s.sem
    case RegFail(t) => t < |s.threads| && s.threads[t].Register?
    case DoSetTimer(t) => t < |s.threads| && s.threads[t].SetTimer?
    case DoStore(t) => t < |s.threads| && s.threads[t].Store?
    case DoUnregister(t) => t < |s.threads| && (s.threads[t].UnregisterOld? || s.threads[t].UnregisterNew?)
    case Fire(cb) =>
      !s.phase.Destroyed? && cb in s.regs && s.regs[cb].status.Registered? && s.regs[cb].value <= s.sem
    case DoCbLock(t) => t < |s.threads| && s.threads[t].CbLock? && s.threads[t].cb in s.regs
    case DoCbQueue(t) => t < |s.threads| && s.threads[t].CbQueue?
    case Close => s.phase.Live? && forall t :: 0 <= t < |s.threads| ==> !s.threads[t].AddPending?
    case Destroy => s.phase.Closing? && AllDone(s.threads)
  }

  function SetPc(s: State, t: nat, pc: Pc): State
    requires t < |s.threads|
  {
    s.(threads := s.threads[t := pc])
  }

  /** unregisterSemaphoreSurfaceCallback: cancels a callback that has not fired. */
  function Cancel(regs: map<nat, Reg>, cb: nat): map<nat, Reg> {
    if cb in regs && regs[cb].status.Registered? then regs[cb := regs[cb].(status := Cancelled)] else regs
  }

  /** Signals the next fence a thread has taken off the list: finished ones first, then late ones. */
  function SignalNext(pc: Pc): (Pc, Retired)
    requires pc.Signal? || pc.CbSignal?
    requires pc.finished + pc.timedOut != []
  {
    if pc.finished != [] then (pc.(finished := pc.finished[1..]), Retired(pc.finished[0], true, Some(pc.look)))
    else (pc.(timedOut := pc.timedOut[1..]), Retired(pc.timedOut[0], false, Some(pc.look)))
  }

  /** Fences still pending when the context goes away are signalled with an error. */
  function ForceRetired(p: seq<Fence>): seq<Retired> {
    seq(|p|, i requires 0 <= i < |p| => Retired(p[i], false, None))
  }

  function Apply(s: State, l: Label): State
    requires Enabled(s, l)
  {
    match l
    case Advance(v) => s.(sem := v)
    case Tick(c) => s.(clock := c)
    case NewFence(seqno, deadline) => s.(threads := s.threads + [AddPending(seqno, deadline)])
    case TimeoutWork => s.(threads := s.threads + [Sample(0)], timer := None)
    case InsertFence(t) =>
      var f := Fence(|s.added|, s.threads[t].seqno, s.threads[t].deadline);
      SetPc(s, t, Sample(0)).(ctx := s.ctx.(pending := Insert(s.ctx.pending, f)), added := s.added + [f])
    case AllocFail(t) => SetPc(s, t, Done).(failed := true)
    case DoSample(t, is32, maxSubmitted) =>
      var cur := CtxSeqno(is32, maxSubmitted, s.sem);
      SetPc(s, t, if s.threads[t].Sample? then Sampled(cur, s.clock, s.threads[t].retry)
                  else CbSampled(cur, s.clock))
    case DoProcess(t) =>
      var reg := s.threads[t].Sampled?;
      var k := Look(s.threads[t].cur, s.threads[t].now);
      var o := Process(s.ctx, k.cur, k.now, reg);
      SetPc(s, t, if reg then Signal(o.finished, o.timedOut, o.newWait, o.newTimeout, k)
                  else CbSignal(o.finished, o.timedOut, k))
        .(ctx := o.ctx)
    case SignalOne(t) =>
      var (pc, r) := SignalNext(s.threads[t]);
      SetPc(s, t, pc).(retired := s.retired + [r])
    case SignalEnd(t) =>
      SetPc(s, t, if s.threads[t].CbSignal? then CbQueue
                  else if s.threads[t].newWait == 0 then Done
                  else Register(s.threads[t].newWait, s.threads[t].newTimeout))
    case RegSuccess(t) =>
      var w := s.threads[t].newWait;
      SetPc(s, t, SetTimer(w, s.threads[t].newTimeout)).(regs := s.regs[t := Reg(w, Registered)])
    case RegAlready(t) => SetPc(s, t, Sample(s.threads[t].newWait))
    case RegFail(t) => SetPc(s, t, Done).(failed := true)
    case DoSetTimer(t) =>
      SetPc(s, t, Store(s.threads[t].newWait)).(timer := Some(s.threads[t].newTimeout))
    case DoStore(t) =>
      var w := s.threads[t].newWait;
      SetPc(s, t, if s.ctx.currentWait != w then UnregisterNew
                  else if s.ctx.stored.Some? then UnregisterOld(s.ctx.stored.value)
                  else Done)
        .(ctx := StoreCallback(s.ctx, w, t))
    case DoUnregister(t) =>
      SetPc(s, t, Done)
        .(regs := Cancel(s.regs, if s.threads[t].UnregisterOld? then s.threads[t].old_ else t))
    case Fire(cb) =>
      s.(threads := s.threads + [CbLock(cb)], regs := s.regs[cb := s.regs[cb].(status := Firing)])
    case DoCbLock(t) =>
      var cb := s.threads[t].cb;
      SetPc(s, t, CbSample)
        .(ctx := CallbackFired(s.ctx, cb, s.regs[cb].value),
          regs := s.regs[cb := s.regs[cb].(status := Fired)])
    case DoCbQueue(t) => SetPc(s, t, if s.phase.Live? then Sample(0) else Done)
    case Close => s.(phase := Closing)
    case Destroy =>
      s.(phase := Destroyed, ctx := Ctx([], s.ctx.currentWait, None),
         regs := if s.ctx.stored.Some? then Cancel(s.regs, s.ctx.stored.value) else s.regs,
         retired := s.retired + ForceRetired(s.ctx.pending))
  }

  ghost predicate Next(s: State, s': State) {
    exists l :: Enabled(s, l) && s' == Apply(s, l)
  }

  ghost predicate Run(tr: seq<State>) {
    |tr| > 0 && tr[0] == Init && forall i :: 0 < i < |tr| ==> Next(tr[i - 1], tr[i])
  }

  // What each thread and each callback may rely on

  predicate AllAtMost(p: seq<Fence>, v: nat) {
    forall i :: 0 <= i < |p| ==> p[i].seqno <= v
  }

  /** The thread has registered a callback and will try to store it. */
  predicate Storing(pc: Pc) { pc.SetTimer? || pc.Store? }

  predicate ThreadOk(s: State, t: nat)
    requires t < |s.threads|
  {
    match s.threads[t]
    case AddPending(seqno, _) => t !in s.regs && seqno < TWO_64
    case Sample(retry) => t !in s.regs && retry <= s.sem
    case Sampled(cur, now, retry) => t !in s.regs && retry <= cur <= s.sem
    case Signal(finished, _, _, _, _) => t !in s.regs && AllAtMost(finished, s.sem)
    case Register(w, _) => t !in s.regs && w > 0
    case SetTimer(w, _) =>
      t in s.regs && s.regs[t].value == w && !s.regs[t].status.Cancelled? && s.ctx.stored != Some(t)
    case Store(w) =>
      t in s.regs && s.regs[t].value == w && !s.regs[t].status.Cancelled? && s.ctx.stored != Some(t)
    case UnregisterOld(old_) =>
      && t in s.regs && old_ in s.regs && old_ != t
      && s.ctx.stored != Some(old_) && old_ < |s.threads| && !Storing(s.threads[old_])
    case UnregisterNew => t in s.regs && s.ctx.stored != Some(t)
    case CbLock(cb) => t !in s.regs && cb in s.regs && s.regs[cb].status.Firing?
    case CbSample => t !in s.regs
    case CbSampled(cur, _) => t !in s.regs && cur <= s.sem
    case CbSignal(finished, _, _) => t !in s.regs && AllAtMost(finished, s.sem)
    case CbQueue => t !in s.regs
    case Done => true
  }

  predicate ThreadsOk(s: State) {
    forall t :: 0 <= t < |s.threads| ==> ThreadOk(s, t)
  }

  /** No two threads run the same callback. */
  predicate OneRunner(ths: seq<Pc>) {
    forall t, u :: 0 <= t < u < |ths| && ths[t].CbLock? && ths[u].CbLock? ==> ths[t].cb != ths[u].cb
  }

  ghost predicate RegOk(s: State, cb: nat)
    requires cb in s.regs
  {
    && cb < |s.threads|
    && (s.regs[cb].status.Firing? || s.regs[cb].status.Fired? ==> s.regs[cb].value <= s.sem)
    && (s.regs[cb].status.Firing? ==> exists t :: 0 <= t < |s.threads| && s.threads[t] == CbLock(cb))
  }

  ghost predicate RegsOk(s: State) {
    && OneRunner(s.threads)
    && (forall cb :: cb in s.regs ==> RegOk(s, cb))
    && (s.ctx.stored.Some? ==>
          var cb := s.ctx.stored.value;
          cb in s.regs && cb < |s.threads| && (s.threads[cb].UnregisterOld? || s.threads[cb].Done?))
  }

  // Who keeps the waited-for value

  /** A thread that has `w` in hand: it will register a callback for it, or has just learnt that
      it is reached and will look again. */
  predicate Pursues(pc: Pc, w: nat) {
    match pc
    case Signal(_, _, v, _, _) => v == w
    case Register(v, _) => v == w
    case Sample(v) => v == w
    case Sampled(_, _, v) => v == w
    case _ => false
  }

  ghost predicate Pursued(s: State, w: nat) {
    exists t :: 0 <= t < |s.threads| && Pursues(s.threads[t], w)
  }

  /** Callback `cb` waits for `w`: it is about to run, or is registered and stored or being stored. */
  predicate Waiter(s: State, cb: nat, w: nat) {
    && cb in s.regs && cb < |s.threads| && s.regs[cb].value == w
    && (s.regs[cb].status.Firing?
        || (s.regs[cb].status.Registered? && (s.ctx.stored == Some(cb) || Storing(s.threads[cb]))))
  }

  ghost predicate Awaited(s: State, w: nat) {
    exists cb :: Waiter(s, cb, w)
  }

  /** Once a callback for `w` has been through its locked region, `w` is waited for again only
      because some thread has it in hand. */
  ghost predicate FiredIsPursued(s: State) {
    forall cb :: cb in s.regs && s.regs[cb].status.Fired? && s.regs[cb].value == s.ctx.currentWait ==>
      s.ctx.currentWait == 0 || Pursued(s, s.ctx.currentWait)
  }

  ghost predicate WaitKept(s: State) {
    s.ctx.currentWait == 0 || Pursued(s, s.ctx.currentWait) || Awaited(s, s.ctx.currentWait)
  }

  /** A thread that will still take a locked look at the pending list. */
  predicate Looks(pc: Pc) {
    pc.Sample? || pc.Sampled? || pc.CbLock? || pc.CbSample? || pc.CbSampled? || pc.CbSignal? || pc.CbQueue?
  }

  ghost predicate SomeoneLooks(s: State) {
    exists t :: 0 <= t < |s.threads| && Looks(s.threads[t])
  }

  ghost predicate HeadKept(s: State) {
    s.phase.Live? && s.ctx.pending != [] ==>
      SomeoneLooks(s) || s.ctx.pending[0].seqno == s.ctx.currentWait != 0
  }

  /** The part of the invariant that a failed allocation or registration gives up. */
  ghost predicate Waiting(s: State) {
    FiredIsPursued(s) && WaitKept(s) && HeadKept(s)
  }

  ghost predicate Structure(s: State) {
    Sorted(s.ctx.pending) && ThreadsOk(s) && RegsOk(s)
  }

  ghost predicate Inv(s: State) {
    Structure(s) && (!s.failed && !s.phase.Destroyed? ==> Waiting(s))
  }

  lemma SortedStep(s: State, l: Label)
    requires Structure(s) && Enabled(s, l)
    ensures Sorted(Apply(s, l).ctx.pending)
  {
    match l
    case InsertFence(t) =>
      InsertSorted(s.ctx.pending, Fence(|s.added|, s.threads[t].seqno, s.threads[t].deadline));
    case DoProcess(t) =>
      ProcessFacts(s.ctx, s.threads[t].cur, s.threads[t].now, s.threads[t].Sampled?);
    case _ =>
  }

  /** The thread that takes a step, or is created by it. */
  predicate Acts(s: State, l: Label, t: nat)
    requires Enabled(s, l)
  {
    t >= |s.threads| || Apply(s, l).threads[t] != s.threads[t]
  }

  lemma ProcessActorOk(s: State, t: nat)
    requires Structure(s) && Enabled(s, DoProcess(t))
    ensures ThreadOk(Apply(s, DoProcess(t)), t)
  {
    assert ThreadOk(s, t);
    ProcessFacts(s.ctx, s.threads[t].cur, s.threads[t].now, s.threads[t].Sampled?);
  }

  lemma SampleActorOk(s: State, l: Label)
    requires Structure(s) && l.DoSample? && Enabled(s, l)
    ensures ThreadOk(Apply(s, l), l.t)
  {
    assert ThreadOk(s, l.t);
    RebuildExact(l.maxSubmitted, s.sem);
  }

  lemma StoreActorOk(s: State, t: nat)
    requires Structure(s) && Enabled(s, DoStore(t))
    ensures ThreadOk(Apply(s, DoStore(t)), t)
  {
    assert ThreadOk(s, t);
  }

  lemma SpawnedOk(s: State, l: Label)
    requires Structure(s) && Enabled(s, l) && |Apply(s, l).threads| > |s.threads|
    ensures ThreadOk(Apply(s, l), |s.threads|)
  {
    assert |s.threads| !in s.regs;
  }

  lemma OtherActorOk(s: State, l: Label, t: nat)
    requires Enabled(s, l) && t < |s.threads| && ThreadOk(s, t) && Acts(s, l, t)
    requires !l.DoProcess? && !l.DoSample? && !l.DoStore?
    requires s.ctx.stored.Some? ==> s.ctx.stored.value in s.regs
    ensures ThreadOk(Apply(s, l), t)
  {}

  lemma ActorOk(s: State, l: Label, t: nat)
    requires Structure(s) && Enabled(s, l) && t < |Apply(s, l).threads| && Acts(s, l, t)
    ensures ThreadOk(Apply(s, l), t)
  {
    if t >= |s.threads| {
      SpawnedOk(s, l);
    } else {
      assert ThreadOk(s, t);
      if l.DoProcess? {
        ProcessActorOk(s, t);
      } else if l.DoSample? {
        SampleActorOk(s, l);
      } else if l.DoStore? {
        StoreActorOk(s, t);
      } else {
        OtherActorOk(s, l, t);
      }
    }
  }

  /** Steps that touch neither the callbacks nor which of them is stored. */
  predicate Quiet(l: Label) {
    !(l.RegSuccess? || l.DoStore? || l.DoUnregister? || l.Fire? || l.DoCbLock? || l.Destroy?)
  }

  lemma QuietStep(s: State, l: Label)
    requires Enabled(s, l) && Quiet(l)
    ensures var s' := Apply(s, l);
      && s'.regs == s.regs && s.sem <= s'.sem && |s.threads| <= |s'.threads|
      && (s'.ctx.stored == s.ctx.stored || s'.ctx.stored == None)
  {}

  lemma QuietStoring(s: State, l: Label, u: nat)
    requires Enabled(s, l) && Quiet(l) && u < |s.threads| && Storing(Apply(s, l).threads[u])
    ensures Storing(s.threads[u])
  {}

  lemma QuietBystander(s: State, s': State, t: nat)
    requires t < |s.threads| && ThreadOk(s, t)
    requires s'.regs == s.regs && s.sem <= s'.sem && |s.threads| <= |s'.threads|
    requires s'.ctx.stored == s.ctx.stored || s'.ctx.stored == None
    requires forall u :: 0 <= u < |s.threads| && Storing(s'.threads[u]) ==> Storing(s.threads[u])
    requires s'.threads[t] == s.threads[t]
    ensures ThreadOk(s', t)
  {}

  lemma FiringBystander(s: State, l: Label, t: nat)
    requires Enabled(s, l) && (l.Fire? || l.DoCbLock?) && t < |s.threads| && ThreadOk(s, t)
    requires !Acts(s, l, t) && OneRunner(s.threads)
    ensures ThreadOk(Apply(s, l), t)
  {}

  lemma StoringBystander(s: State, l: Label, t: nat)
    requires Enabled(s, l) && (l.RegSuccess? || l.DoStore? || l.DoUnregister?)
    requires t < |s.threads| && ThreadOk(s, t) && !Acts(s, l, t) && ThreadOk(s, l.t)
    ensures ThreadOk(Apply(s, l), t)
  {}

  lemma ThreadOkStep(s: State, l: Label, t: nat)
    requires Structure(s) && Enabled(s, l) && t < |Apply(s, l).threads|
    ensures ThreadOk(Apply(s, l), t)
  {
    if Acts(s, l, t) {
      ActorOk(s, l, t);
    } else if Quiet(l) {
      QuietStep(s, l);
      forall u | 0 <= u < |s.threads| && Storing(Apply(s, l).threads[u]) ensures Storing(s.threads[u]) {
        QuietStoring(s, l, u);
      }
      QuietBystander(s, Apply(s, l), t);
    } else {
      assert l.Fire? || l.Destroy? || ThreadOk(s, l.t);
      if l.Destroy? {
        assert s.threads[t].Done?;
      } else if l.Fire? || l.DoCbLock? {
        FiringBystander(s, l, t);
      } else {
        StoringBystander(s, l, t);
      }
    }
  }

  lemma ThreadsStep(s: State, l: Label)
    requires Structure(s) && Enabled(s, l)
    ensures ThreadsOk(Apply(s, l))
  {
    forall t | 0 <= t < |Apply(s, l).threads| ensures ThreadOk(Apply(s, l), t) {
      ThreadOkStep(s, l, t);
    }
  }

  lemma OneRunnerStep(s: State, l: Label)
    requires Structure(s) && Enabled(s, l)
    ensures OneRunner(Apply(s, l).threads)
  {
    if l.Fire? {
      forall t | 0 <= t < |s.threads| && s.threads[t].CbLock? ensures s.threads[t].cb != l.cb {
        assert ThreadOk(s, t);
      }
    }
  }

  lemma RegOkStep(s: State, l: Label, cb: nat)
    requires Structure(s) && Enabled(s, l) && cb in Apply(s, l).regs
    ensures RegOk(Apply(s, l), cb)
  {
    var s' := Apply(s, l);
    assert cb in s.regs ==> RegOk(s, cb);
    if l.DoCbLock? { assert ThreadOk(s, l.t); }
    if s'.regs[cb].status.Firing? {
      if l == Fire(cb) {
        assert s'.threads[|s.threads|] == CbLock(cb);
      } else {
        var t :| 0 <= t < |s.threads| && s.threads[t] == CbLock(cb);
        assert s'.threads[t] == CbLock(cb);
      }
    }
  }

  lemma StoredStep(s: State, l: Label)
    requires Structure(s) && Enabled(s, l) && Apply(s, l).ctx.stored.Some?
    ensures var s' := Apply(s, l); var cb := s'.ctx.stored.value;
      cb in s'.regs && cb < |s'.threads| && (s'.threads[cb].UnregisterOld? || s'.threads[cb].Done?)
  {
    if l.DoProcess? {
      ProcessFacts(s.ctx, s.threads[l.t].cur, s.threads[l.t].now, s.threads[l.t].Sampled?);
    } else if l.DoStore? {
      assert ThreadOk(s, l.t);
    }
  }

  lemma RegsStep(s: State, l: Label)
    requires Structure(s) && Enabled(s, l)
    ensures RegsOk(Apply(s, l))
  {
    OneRunnerStep(s, l);
    forall cb | cb in Apply(s, l).regs ensures RegOk(Apply(s, l), cb) {
      RegOkStep(s, l, cb);
    }
    if Apply(s, l).ctx.stored.Some? {
      StoredStep(s, l);
    }
  }

  // Steps of the waiting part

  predicate Fails(l: Label) { l.AllocFail? || l.RegFail? }

  /** A step clears the waited-for value, keeps it, or leaves the new one in a thread's hand. */
  lemma WaitValueStep(s: State, l: Label)
    requires Structure(s) && Enabled(s, l)
    ensures var s' := Apply(s, l); var w := s'.ctx.currentWait;
      w == 0 || w == s.ctx.currentWait || Pursued(s', w)
  {
    if l.DoProcess? && s.threads[l.t].Sampled? {
      ProcessWaiter(s.ctx, s.threads[l.t].cur, s.threads[l.t].now);
      var s' := Apply(s, l);
      assert s'.threads[l.t].newWait != 0 ==> Pursues(s'.threads[l.t], s'.ctx.currentWait);
    }
  }

  /** The thread that has the waited-for value in hand keeps it, until it registers a callback. */
  lemma PursuerStep(s: State, l: Label, t: nat, w: nat)
    requires Enabled(s, l) && t < |s.threads| && Pursues(s.threads[t], w) && w > 0
    requires !Fails(l)
    ensures var pc := Apply(s, l).threads[t];
      Pursues(pc, w) || l == RegSuccess(t) || (l == DoProcess(t) && s.threads[t].Sampled?)
  {}

  lemma RetryMovesOn(s: State, t: nat)
    requires Structure(s) && Enabled(s, DoProcess(t)) && s.threads[t].Sampled?
    requires s.threads[t].retry == s.ctx.currentWait > 0
    ensures var s' := Apply(s, DoProcess(t)); var w := s'.ctx.currentWait;
      w == 0 || Pursues(s'.threads[t], w)
  {
    assert ThreadOk(s, t);
    ProcessWaiter(s.ctx, s.threads[t].cur, s.threads[t].now);
    ProcessFacts(s.ctx, s.threads[t].cur, s.threads[t].now, true);
  }

  lemma PursuedStep(s: State, l: Label)
    requires Structure(s) && Enabled(s, l) && !Fails(l)
    requires s.ctx.currentWait > 0 && Pursued(s, s.ctx.currentWait)
    ensures var s' := Apply(s, l); var w := s'.ctx.currentWait;
      || w == 0
      || Pursued(s', w)
      || (w == s.ctx.currentWait && l.RegSuccess? && s.threads[l.t].newWait == w && Waiter(s', l.t, w))
  {
    var w, s' := s.ctx.currentWait, Apply(s, l);
    WaitValueStep(s, l);
    var t :| 0 <= t < |s.threads| && Pursues(s.threads[t], w);
    PursuerStep(s, l, t, w);
    if l == DoProcess(t) && s.threads[t].Sampled? {
      RetryMovesOn(s, t);
      assert s'.ctx.currentWait == 0 || Pursues(s'.threads[t], s'.ctx.currentWait);
    }
  }

  /** Only storing a callback can displace one that waits. */
  lemma WaiterStays(s: State, l: Label, cb: nat, w: nat)
    requires Structure(s) && Enabled(s, l) && !l.DoStore? && !l.Destroy?
    requires Waiter(s, cb, w) && w > 0 && Apply(s, l).ctx.currentWait == w
    ensures Waiter(Apply(s, l), cb, w)
  {
    if l.DoUnregister? || l.DoCbLock? || l.RegSuccess? {
      assert ThreadOk(s, l.t);
    } else if l.DoProcess? {
      ProcessFacts(s.ctx, s.threads[l.t].cur, s.threads[l.t].now, s.threads[l.t].Sampled?);
    }
  }

  lemma WaiterStep(s: State, l: Label, cb: nat)
    requires Structure(s) && Enabled(s, l) && FiredIsPursued(s)
    requires !Fails(l) && !Apply(s, l).phase.Destroyed?
    requires s.ctx.currentWait > 0 && Waiter(s, cb, s.ctx.currentWait)
    requires Apply(s, l).ctx.currentWait == s.ctx.currentWait
    ensures var s' := Apply(s, l); var w := s'.ctx.currentWait; Pursued(s', w) || Awaited(s', w)
  {
    var w, s' := s.ctx.currentWait, Apply(s, l);
    if l.DoStore? {
      assert ThreadOk(s, l.t);
      if s.threads[l.t].newWait == w && s.regs[l.t].status.Fired? {
        PursuedStep(s, l);
      } else {
        assert Waiter(s', if s.threads[l.t].newWait == w then l.t else cb, w);
      }
    } else {
      WaiterStays(s, l, cb, w);
    }
  }

  lemma WaitKeptStep(s: State, l: Label)
    requires Structure(s) && Enabled(s, l) && FiredIsPursued(s) && WaitKept(s)
    requires !Fails(l) && !Apply(s, l).phase.Destroyed?
    ensures WaitKept(Apply(s, l))
  {
    WaitValueStep(s, l);
    if s.ctx.currentWait > 0 && Apply(s, l).ctx.currentWait == s.ctx.currentWait {
      if Pursued(s, s.ctx.currentWait) {
        PursuedStep(s, l);
      } else {
        var cb :| Waiter(s, cb, s.ctx.currentWait);
        WaiterStep(s, l, cb);
      }
    }
  }

  lemma FiredStep(s: State, l: Label, cb: nat)
    requires Structure(s) && Enabled(s, l) && FiredIsPursued(s) && !Fails(l)
    requires var s' := Apply(s, l);
      cb in s'.regs && s'.regs[cb].status.Fired? && s'.regs[cb].value == s'.ctx.currentWait > 0
    ensures Pursued(Apply(s, l), Apply(s, l).ctx.currentWait)
  {
    var w := Apply(s, l).ctx.currentWait;
    WaitValueStep(s, l);
    if w == s.ctx.currentWait {
      assert RegOk(s, cb) && s.regs[cb].status.Fired?;
      PursuedStep(s, l);
    }
  }

  lemma HeadKeptStep(s: State, l: Label)
    requires Structure(s) && Enabled(s, l) && HeadKept(s) && !Fails(l)
    ensures HeadKept(Apply(s, l))
  {
    var s' := Apply(s, l);
    if s'.phase.Live? && s'.ctx.pending != [] {
      if l.InsertFence? || l.DoCbLock? || (l.DoProcess? && s.threads[l.t].CbSampled?) {
        assert Looks(s'.threads[l.t]);
      } else if l.DoProcess? {
        ProcessWaiter(s.ctx, s.threads[l.t].cur, s.threads[l.t].now);
        ProcessFacts(s.ctx, s.threads[l.t].cur, s.threads[l.t].now, true);
      } else if SomeoneLooks(s) {
        var t :| 0 <= t < |s.threads| && Looks(s.threads[t]);
        assert Looks(s'.threads[t]);
      }
    }
  }

  lemma WaitingStep(s: State, l: Label)
    requires Structure(s) && Waiting(s) && Enabled(s, l) && !Fails(l) && !Apply(s, l).phase.Destroyed?
    ensures Waiting(Apply(s, l))
  {
    var s' := Apply(s, l);
    WaitKeptStep(s, l);
    HeadKeptStep(s, l);
    forall cb | cb in s'.regs && s'.regs[cb].status.Fired? && s'.regs[cb].value == s'.ctx.currentWait > 0
      ensures Pursued(s', s'.ctx.currentWait)
    {
      FiredStep(s, l, cb);
    }
  }

  lemma StructureStep(s: State, l: Label)
    requires Structure(s) && Enabled(s, l)
    ensures Structure(Apply(s, l))
  {
    SortedStep(s, l);
    ThreadsStep(s, l);
    RegsStep(s, l);
  }

  lemma FailureRecorded(s: State, l: Label)
    requires Enabled(s, l) && !Apply(s, l).failed && !Apply(s, l).phase.Destroyed?
    ensures !Fails(l) && !s.failed && !s.phase.Destroyed?
  {}

  lemma StepInv(s: State, s': State)
    requires Inv(s) && Next(s, s')
    ensures Inv(s')
  {
    var l :| Enabled(s, l) && s' == Apply(s, l);
    StructureStep(s, l);
    if !s'.failed && !s'.phase.Destroyed? {
      FailureRecorded(s, l);
      WaitingStep(s, l);
    }
  }

  lemma InitInv()
    ensures Inv(Init)
  {}

  lemma {:induction false} RunInv(tr: seq<State>)
    requires Run(tr)
    ensures Inv(tr[|tr| - 1])
  {
    var n := |tr| - 1;
    if n == 0 {
      InitInv();
    } else {
      RunInv(tr[..n]);
      StepInv(tr[n - 1], tr[n]);
    }
  }

  /** The step that a thread takes next, if RM answers a registration truthfully. */
  function NextOf(s: State, t: nat): Label
    requires t < |s.threads|
  {
    match s.threads[t]
    case AddPending(_, _) => InsertFence(t)
    case Sample(_) => DoSample(t, false, s.sem)
    case Sampled(_, _, _) => DoProcess(t)
    case Signal(f, l, _, _, _) => if f + l != [] then SignalOne(t) else SignalEnd(t)
    case Register(w, _) => if s.sem < w then RegSuccess(t) else RegAlready(t)
    case SetTimer(_, _) => DoSetTimer(t)
    case Store(_) => DoStore(t)
    case UnregisterOld(_) => DoUnregister(t)
    case UnregisterNew => DoUnregister(t)
    case CbLock(_) => DoCbLock(t)
    case CbSample => DoSample(t, false, s.sem)
    case CbSampled(_, _) => DoProcess(t)
    case CbSignal(f, l, _) => if f + l != [] then SignalOne(t) else SignalEnd(t)
    case CbQueue => DoCbQueue(t)
    case Done => Tick(s.clock)
  }

  /** No thread is ever stuck, RM can fire whatever is registered and reached, the timer can go off
      once it is due, and a live context takes new fences. */
  lemma ThreadsGoOn(tr: seq<State>, t: nat, cb: nat, seqno: nat, deadline: nat)
    requires Run(tr) && tr[|tr| - 1].sem < TWO_64
    ensures var s := tr[|tr| - 1];
      && (t < |s.threads| ==> Enabled(s, NextOf(s, t)))
      && (t < |s.threads| && !s.threads[t].Done? ==> Apply(s, NextOf(s, t)).threads[t] != s.threads[t])
      && (s.phase.Live? && seqno < TWO_64 ==> Enabled(s, NewFence(seqno, deadline)))
      && (!s.phase.Destroyed? && cb in s.regs && s.regs[cb].status.Registered? ==>
            (Enabled(s, Fire(cb)) <==> s.regs[cb].value <= s.sem))
      && (s.phase.Live? && s.timer.Some? ==> (Enabled(s, TimeoutWork) <==> s.timer.value <= s.clock))
      && (s.phase.Closing? && AllDone(s.threads) ==> Enabled(s, Destroy) && Apply(s, Destroy).phase.Destroyed?)
  {
    RunInv(tr);
    var s := tr[|tr| - 1];
    if t < |s.threads| {
      assert ThreadOk(s, t);
      ThreadCanMove(s, t);
      if !s.threads[t].Done? {
        ThreadMoves(s, t);
      }
    }
  }

  lemma ThreadCanMove(s: State, t: nat)
    requires s.sem < TWO_64 && t < |s.threads| && ThreadOk(s, t)
    ensures Enabled(s, NextOf(s, t))
  {}

  lemma ThreadMoves(s: State, t: nat)
    requires t < |s.threads| && !s.threads[t].Done? && Enabled(s, NextOf(s, t))
    ensures Apply(s, NextOf(s, t)).threads[t] != s.threads[t]
  {
    if s.threads[t].Signal? || s.threads[t].CbSignal? {
      SignalMoves(s, t);
    }
  }

  lemma SignalMoves(s: State, t: nat)
    requires t < |s.threads| && (s.threads[t].Signal? || s.threads[t].CbSignal?) && Enabled(s, NextOf(s, t))
    ensures Apply(s, NextOf(s, t)).threads[t] != s.threads[t]
  {}

  // No lost wake-up

  /** A thread that has the waited-for value in hand and will hand it to RM. */
  ghost predicate BeingRegistered(s: State, w: nat) {
    exists t :: 0 <= t < |s.threads| &&
      (((s.threads[t].Register? || s.threads[t].Signal?) && s.threads[t].newWait == w)
       || (Storing(s.threads[t]) && s.threads[t].newWait == w && t in s.regs && s.regs[t] == Reg(w, Registered)))
  }

  /** The stored callback is registered with RM for `w`. */
  predicate Armed(s: State, w: nat) {
    s.ctx.stored.Some? && s.ctx.stored.value in s.regs && s.regs[s.ctx.stored.value] == Reg(w, Registered)
  }

  lemma SomeoneReturns(s: State)
    requires Structure(s) && Waiting(s) && s.phase.Live? && s.ctx.pending != []
    ensures var w := s.ctx.currentWait;
      || SomeoneLooks(s)
      || (w == s.ctx.pending[0].seqno && w != 0 && (BeingRegistered(s, w) || Armed(s, w)))
  {
    var w := s.ctx.currentWait;
    if !SomeoneLooks(s) {
      if Pursued(s, w) {
        var t :| 0 <= t < |s.threads| && Pursues(s.threads[t], w);
        assert Looks(s.threads[t]) || BeingRegistered(s, w);
      } else {
        var cb :| Waiter(s, cb, w);
        assert RegOk(s, cb) && ThreadOk(s, cb);
      }
    }
  }

  /** In every reachable state of a live context in which nothing failed, a pending fence has
      someone to come back for it: a thread that will still look at the list, or else the waited-for
      value is the head's and is being registered or is armed. */
  lemma NoLostWakeup(tr: seq<State>)
    requires Run(tr)
    requires var s := tr[|tr| - 1]; s.phase.Live? && !s.failed && s.ctx.pending != []
    ensures var s := tr[|tr| - 1]; var w := s.ctx.currentWait;
      || SomeoneLooks(s)
      || (w == s.ctx.pending[0].seqno && w != 0 && (BeingRegistered(s, w) || Armed(s, w)))
  {
    RunInv(tr);
    SomeoneReturns(tr[|tr| - 1]);
  }

  /** When every thread is at rest, a pending fence is guarded by an armed callback for exactly the
      head's value; and once the semaphore reaches it that callback can fire. */
  lemma QuiescentIsArmed(tr: seq<State>)
    requires Run(tr)
    requires var s := tr[|tr| - 1];
      s.phase.Live? && !s.failed && s.ctx.pending != [] && AllDone(s.threads)
    ensures var s := tr[|tr| - 1];
      && Armed(s, s.ctx.pending[0].seqno)
      && (s.ctx.pending[0].seqno <= s.sem ==> Enabled(s, Fire(s.ctx.stored.value)))
  {
    NoLostWakeup(tr);
  }
}
