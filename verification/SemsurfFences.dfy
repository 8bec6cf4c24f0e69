/**
 What becomes of the fences of a semaphore-surface context, over every run of the waiter
 protocol: where each one is, and what a signal without error means.
 */
module SemsurfFences {
  import opened Base
  import opened SemsurfContext
  import opened SemsurfProtocol

  /** How often `f` is among the fences a thread has taken off the list and not yet signalled. */
  function Taken(pc: Pc, f: Fence): nat {
    if pc.Signal? || pc.CbSignal? then Count(pc.finished, f) + Count(pc.timedOut, f) else 0
  }

  function TakenOf(f: Fence): Pc -> nat {
    (pc: Pc) => Taken(pc, f)
  }

  /** How often `f` is in some thread's hands. */
  function AllTaken(ths: seq<Pc>, f: Fence): nat {
    SumOf(ths, TakenOf(f))
  }

  function Fences(r: seq<Retired>): (fs: seq<Fence>)
    ensures |fs| == |r|
    ensures forall i :: 0 <= i < |r| ==> fs[i] == r[i].fence
  {
    seq(|r|, i requires 0 <= i < |r| => r[i].fence)
  }

  /** Every fence put on the list is on it, in one thread's hands, or retired, and nothing else is. */
  predicate Conserved(s: State, f: Fence) {
    Count(s.added, f)
      == Count(s.ctx.pending, f) + AllTaken(s.threads, f) + Count(Fences(s.retired), f)
  }

  /** A fence is named by its position among those added, values and the semaphore fit 64 bits, and a
      fence retired without error had its value reached. */
  predicate Honest(s: State) {
    && s.sem < TWO_64
    && (forall i :: 0 <= i < |s.added| ==> s.added[i].id == i && s.added[i].seqno < TWO_64)
    && (forall i :: 0 <= i < |s.retired| && s.retired[i].ok ==> s.retired[i].fence.seqno <= s.sem)
  }

  lemma InsertConserved(s: State, t: nat, f: Fence)
    requires Sorted(s.ctx.pending) && Enabled(s, InsertFence(t)) && Conserved(s, f)
    ensures Conserved(Apply(s, InsertFence(t)), f)
  {
    var new_ := Fence(|s.added|, s.threads[t].seqno, s.threads[t].deadline);
    InsertCount(s.ctx.pending, new_, f);
    CountAppend(s.added, new_, f);
    SumUpdate(s.threads, t, Sample(0), TakenOf(f));
  }

  lemma ProcessCount(c: Ctx, cur: nat, now: nat, reg: bool, f: Fence)
    requires Sorted(c.pending)
    ensures var o := Process(c, cur, now, reg);
      Count(c.pending, f) == Count(o.ctx.pending, f) + Count(o.finished, f) + Count(o.timedOut, f)
  {
    var o := Process(c, cur, now, reg);
    ProcessFacts(c, cur, now, reg);
    CountConcat(o.finished + o.timedOut, o.ctx.pending, f);
    CountConcat(o.finished, o.timedOut, f);
  }

  lemma ProcessConserved(s: State, t: nat, f: Fence)
    requires Sorted(s.ctx.pending) && Enabled(s, DoProcess(t)) && Conserved(s, f)
    ensures Conserved(Apply(s, DoProcess(t)), f)
  {
    var s' := Apply(s, DoProcess(t));
    ProcessCount(s.ctx, s.threads[t].cur, s.threads[t].now, s.threads[t].Sampled?, f);
    SumUpdate(s.threads, t, s'.threads[t], TakenOf(f));
    assert s'.threads == s.threads[t := s'.threads[t]];
  }

  lemma SignalCount(pc: Pc, f: Fence)
    requires (pc.Signal? || pc.CbSignal?) && pc.finished + pc.timedOut != []
    ensures var (pc', r) := SignalNext(pc);
      Taken(pc, f) == Taken(pc', f) + if r.fence == f then 1 else 0
  {
    if pc.finished != [] {
      CountPop(pc.finished, f);
    } else {
      CountPop(pc.timedOut, f);
    }
  }

  lemma RetiredCount(rs: seq<Retired>, r: Retired, f: Fence)
    ensures Count(Fences(rs + [r]), f) == Count(Fences(rs), f) + if r.fence == f then 1 else 0
  {
    assert Fences(rs + [r]) == Fences(rs) + [r.fence];
    CountAppend(Fences(rs), r.fence, f);
  }

  lemma SignalConserved(s: State, t: nat, f: Fence)
    requires Enabled(s, SignalOne(t)) && Conserved(s, f)
    ensures Conserved(Apply(s, SignalOne(t)), f)
  {
    var (pc', r) := SignalNext(s.threads[t]);
    SignalCount(s.threads[t], f);
    SumUpdate(s.threads, t, pc', TakenOf(f));
    RetiredCount(s.retired, r, f);
  }

  lemma DestroyConserved(s: State, f: Fence)
    requires Enabled(s, Destroy) && Conserved(s, f)
    ensures Conserved(Apply(s, Destroy), f)
  {
    var p := s.ctx.pending;
    assert Fences(s.retired + ForceRetired(p)) == Fences(s.retired) + p;
    CountConcat(Fences(s.retired), p, f);
  }

  lemma SpawnConserved(s: State, l: Label, f: Fence)
    requires Enabled(s, l) && Conserved(s, f) && (l.NewFence? || l.TimeoutWork? || l.Fire?)
    ensures Conserved(Apply(s, l), f)
  {
    SumAppend(s.threads, Apply(s, l).threads[|s.threads|], TakenOf(f));
  }

  predicate MovesNoFence(l: Label) {
    || l.AllocFail? || l.DoSample? || l.SignalEnd? || l.RegSuccess? || l.RegAlready? || l.RegFail?
    || l.DoSetTimer? || l.DoStore? || l.DoUnregister? || l.DoCbLock? || l.DoCbQueue?
  }

  lemma MoveShape(s: State, l: Label, f: Fence)
    requires Enabled(s, l) && MovesNoFence(l)
    ensures var s' := Apply(s, l);
      && s'.added == s.added && s'.retired == s.retired && s'.ctx.pending == s.ctx.pending
      && l.t < |s.threads| == |s'.threads|
      && s'.threads == s.threads[l.t := s'.threads[l.t]]
      && Taken(s'.threads[l.t], f) == Taken(s.threads[l.t], f)
  {}

  lemma MoveConserved(s: State, l: Label, f: Fence)
    requires Enabled(s, l) && Conserved(s, f) && MovesNoFence(l)
    ensures Conserved(Apply(s, l), f)
  {
    MoveShape(s, l, f);
    SumUpdate(s.threads, l.t, Apply(s, l).threads[l.t], TakenOf(f));
  }

  lemma ConservedStep(s: State, l: Label, f: Fence)
    requires Sorted(s.ctx.pending) && Enabled(s, l) && Conserved(s, f)
    ensures Conserved(Apply(s, l), f)
  {
    if l.InsertFence? {
      InsertConserved(s, l.t, f);
    } else if l.DoProcess? {
      ProcessConserved(s, l.t, f);
    } else if l.SignalOne? {
      SignalConserved(s, l.t, f);
    } else if l.Destroy? {
      DestroyConserved(s, f);
    } else if MovesNoFence(l) {
      MoveConserved(s, l, f);
    } else if !(l.Advance? || l.Tick? || l.Close?) {
      SpawnConserved(s, l, f);
    }
  }

  lemma HonestStep(s: State, l: Label)
    requires Structure(s) && Enabled(s, l) && Honest(s)
    ensures Honest(Apply(s, l))
  {
    if l.SignalOne? || l.InsertFence? {
      assert ThreadOk(s, l.t);
    }
  }

  lemma {:induction false} HonestRun(tr: seq<State>)
    requires Run(tr)
    ensures Honest(tr[|tr| - 1])
  {
    var n := |tr| - 1;
    if n > 0 {
      HonestRun(tr[..n]);
      RunInv(tr[..n]);
      assert Next(tr[n - 1], tr[n]);
      var l :| Enabled(tr[n - 1], l) && tr[n] == Apply(tr[n - 1], l);
      HonestStep(tr[n - 1], l);
    }
  }

  lemma {:induction false} ConservedRun(tr: seq<State>, f: Fence)
    requires Run(tr)
    ensures Conserved(tr[|tr| - 1], f)
  {
    var n := |tr| - 1;
    if n > 0 {
      ConservedRun(tr[..n], f);
      RunInv(tr[..n]);
      assert Next(tr[n - 1], tr[n]);
      var l :| Enabled(tr[n - 1], l) && tr[n] == Apply(tr[n - 1], l);
      ConservedStep(tr[n - 1], l, f);
    }
  }

  lemma {:induction false} OccursOnce(fs: seq<Fence>, i: nat)
    requires i < |fs| && forall j :: 0 <= j < |fs| ==> fs[j].id == j
    ensures Count(fs, fs[i]) == 1
  {
    var n := |fs| - 1;
    if i < n {
      OccursOnce(fs[..n], i);
    } else {
      CountAbsent(fs[..n], fs[n]);
    }
  }

  predicate Emptied(s: State) {
    s.phase.Destroyed? ==> s.ctx.pending == [] && s.ctx.stored.None? && AllDone(s.threads)
  }

  lemma {:induction false} EmptiedRun(tr: seq<State>)
    requires Run(tr)
    ensures Emptied(tr[|tr| - 1])
  {
    var n := |tr| - 1;
    if n > 0 {
      EmptiedRun(tr[..n]);
      assert Next(tr[n - 1], tr[n]);
      var l :| Enabled(tr[n - 1], l) && tr[n] == Apply(tr[n - 1], l);
      EmptiedStep(tr[n - 1], l);
    }
  }

  lemma DestroyedIsStill(s: State, l: Label)
    requires Enabled(s, l) && s.phase.Destroyed? && AllDone(s.threads)
    ensures l.Advance? || l.Tick?
  {}

  lemma OnlyDestroyDestroys(s: State, l: Label)
    requires Enabled(s, l) && !s.phase.Destroyed? && !l.Destroy?
    ensures !Apply(s, l).phase.Destroyed?
  {}

  lemma EmptiedStep(s: State, l: Label)
    requires Enabled(s, l) && Emptied(s)
    ensures Emptied(Apply(s, l))
  {
    if s.phase.Destroyed? {
      DestroyedIsStill(s, l);
    } else if !l.Destroy? {
      OnlyDestroyDestroys(s, l);
    }
  }

  /** Once the context is closed to user space, no fence is on its way in. */
  predicate Shut(s: State) {
    !s.phase.Live? && forall t :: 0 <= t < |s.threads| ==> !s.threads[t].AddPending?
  }

  lemma ShutNext(s: State, s': State)
    requires Next(s, s') && Shut(s)
    ensures Shut(s') && s'.added == s.added
  {
    var l :| Enabled(s, l) && s' == Apply(s, l);
    ShutStep(s, l);
  }

  lemma ShutThread(s: State, l: Label, t: nat)
    requires Enabled(s, l) && !s.phase.Live? && t < |Apply(s, l).threads|
    requires t < |s.threads| ==> !s.threads[t].AddPending?
    ensures !Apply(s, l).threads[t].AddPending?
  {}

  lemma ShutPhase(s: State, l: Label)
    requires Enabled(s, l) && !s.phase.Live? && !l.InsertFence?
    ensures !Apply(s, l).phase.Live? && Apply(s, l).added == s.added
  {}

  lemma ShutStep(s: State, l: Label)
    requires Enabled(s, l) && Shut(s)
    ensures Shut(Apply(s, l)) && Apply(s, l).added == s.added
  {
    ShutPhase(s, l);
    forall t | 0 <= t < |Apply(s, l).threads| ensures !Apply(s, l).threads[t].AddPending? {
      ShutThread(s, l, t);
    }
  }

  lemma {:induction false} ShutStays(tr: seq<State>, i: nat, j: nat)
    requires Run(tr) && i <= j < |tr| && Shut(tr[i])
    ensures Shut(tr[j]) && tr[j].added == tr[i].added
    decreases j
  {
    if i < j {
      ShutStays(tr, i, j - 1);
      ShutAt(tr, j);
    }
  }

  lemma ShutAt(tr: seq<State>, j: nat)
    requires Run(tr) && 0 < j < |tr| && Shut(tr[j - 1])
    ensures Shut(tr[j]) && tr[j].added == tr[j - 1].added
  {
    assert Next(tr[j - 1], tr[j]);
    ShutNext(tr[j - 1], tr[j]);
  }

  /** No fence is added once user space has closed the context. */
  lemma NoneAfterClose(tr: seq<State>, i: nat)
    requires Run(tr) && i + 1 < |tr| && Enabled(tr[i], Close) && tr[i + 1] == Apply(tr[i], Close)
    ensures tr[|tr| - 1].added == tr[i].added && !tr[|tr| - 1].phase.Live?
  {
    ShutStays(tr, i + 1, |tr| - 1);
  }

  /** At every moment each fence is in exactly one place: the pending list, the local list of one
      thread, or retired. Once the context is destroyed, every fence is retired. */
  lemma FenceInOnePlace(tr: seq<State>, i: nat)
    requires Run(tr) && i < |tr[|tr| - 1].added|
    ensures var s := tr[|tr| - 1]; var f := s.added[i];
      && Count(s.ctx.pending, f) + AllTaken(s.threads, f) + Count(Fences(s.retired), f) == 1
      && (s.phase.Destroyed? ==> Count(Fences(s.retired), f) == 1)
  {
    var s := tr[|tr| - 1];
    var f := s.added[i];
    ConservedRun(tr, f);
    HonestRun(tr);
    OccursOnce(s.added, i);
    EmptiedRun(tr);
    if s.phase.Destroyed? {
      SumZero(s.threads, TakenOf(f));
    }
  }

  /** With a semaphore that only grows, a fence signalled without error had its value reached. */
  lemma SignalledWasReached(tr: seq<State>, i: nat)
    requires Run(tr) && i < |tr[|tr| - 1].retired| && tr[|tr| - 1].retired[i].ok
    ensures tr[|tr| - 1].retired[i].fence.seqno <= tr[|tr| - 1].sem
  {
    HonestRun(tr);
  }

  // Why a fence was retired

  /** What a look took off the list: fences at or below its sample, and late ones above it. */
  predicate TakenBy(finished: seq<Fence>, timedOut: seq<Fence>, k: Look) {
    && AllAtMost(finished, k.cur)
    && forall i :: 0 <= i < |timedOut| ==> timedOut[i].seqno > k.cur && timedOut[i].deadline <= k.now
  }

  predicate Past(s: State, k: Look) { k.cur <= s.sem && k.now <= s.clock }

  predicate LookOk(s: State, pc: Pc) {
    match pc
    case Sampled(cur, now, _) => Past(s, Look(cur, now))
    case CbSampled(cur, now) => Past(s, Look(cur, now))
    case Signal(finished, timedOut, _, _, k) => Past(s, k) && TakenBy(finished, timedOut, k)
    case CbSignal(finished, timedOut, k) => Past(s, k) && TakenBy(finished, timedOut, k)
    case _ => true
  }

  /** A look signals without error exactly what its sample had reached, and with an error only what
      was late; without a look a fence is signalled, with an error, by the context's end alone. */
  predicate Deserved(s: State, r: Retired) {
    match r.look
    case None => !r.ok && s.phase.Destroyed?
    case Some(k) => Past(s, k) && (r.ok <==> r.fence.seqno <= k.cur) && (!r.ok ==> r.fence.deadline <= k.now)
  }

  predicate Justified(s: State) {
    && (forall t :: 0 <= t < |s.threads| ==> LookOk(s, s.threads[t]))
    && (forall i :: 0 <= i < |s.retired| ==> Deserved(s, s.retired[i]))
  }

  lemma ProcessLookOk(s: State, t: nat)
    requires Sorted(s.ctx.pending) && Enabled(s, DoProcess(t)) && LookOk(s, s.threads[t])
    ensures LookOk(Apply(s, DoProcess(t)), Apply(s, DoProcess(t)).threads[t])
  {
    ProcessFacts(s.ctx, s.threads[t].cur, s.threads[t].now, s.threads[t].Sampled?);
  }

  lemma SampleLookOk(s: State, l: Label)
    requires l.DoSample? && Enabled(s, l)
    ensures LookOk(Apply(s, l), Apply(s, l).threads[l.t])
  {
    RebuildExact(l.maxSubmitted, s.sem);
  }

  lemma OtherLookOk(s: State, l: Label, t: nat)
    requires Enabled(s, l) && !l.DoProcess? && !l.DoSample? && t < |Apply(s, l).threads| && Acts(s, l, t)
    requires t < |s.threads| ==> LookOk(s, s.threads[t])
    ensures LookOk(Apply(s, l), Apply(s, l).threads[t])
  {}

  lemma LookOkStep(s: State, l: Label, t: nat)
    requires Sorted(s.ctx.pending) && Enabled(s, l) && t < |Apply(s, l).threads|
    requires t < |s.threads| ==> LookOk(s, s.threads[t])
    ensures LookOk(Apply(s, l), Apply(s, l).threads[t])
  {
    if !Acts(s, l, t) {
      RetiredGrows(s, l);
    } else if l.DoProcess? {
      ProcessLookOk(s, t);
    } else if l.DoSample? {
      SampleLookOk(s, l);
    } else {
      OtherLookOk(s, l, t);
    }
  }

  /** Nothing that was retired is forgotten or changed. */
  lemma RetiredGrows(s: State, l: Label)
    requires Enabled(s, l)
    ensures s.retired <= Apply(s, l).retired
    ensures s.sem <= Apply(s, l).sem && s.clock <= Apply(s, l).clock
    ensures s.phase.Destroyed? ==> Apply(s, l).phase.Destroyed?
  {}

  lemma DeservedStep(s: State, l: Label, i: nat)
    requires Enabled(s, l) && Justified(s) && i < |Apply(s, l).retired|
    ensures Deserved(Apply(s, l), Apply(s, l).retired[i])
  {
    RetiredGrows(s, l);
    if i < |s.retired| {
      assert Deserved(s, s.retired[i]);
    } else if l.SignalOne? {
      assert LookOk(s, s.threads[l.t]);
    }
  }

  lemma {:induction false} JustifiedRun(tr: seq<State>)
    requires Run(tr)
    ensures Justified(tr[|tr| - 1])
  {
    var n := |tr| - 1;
    if n > 0 {
      JustifiedRun(tr[..n]);
      RunInv(tr[..n]);
      var s := tr[n - 1];
      assert Next(s, tr[n]);
      var l :| Enabled(s, l) && tr[n] == Apply(s, l);
      forall t | 0 <= t < |tr[n].threads| ensures LookOk(tr[n], tr[n].threads[t]) {
        LookOkStep(s, l, t);
      }
      forall i | 0 <= i < |tr[n].retired| ensures Deserved(tr[n], tr[n].retired[i]) {
        DeservedStep(s, l, i);
      }
    }
  }

  /** Over every run a fence that a look took is signalled without error exactly if the look's sample
      had reached it, and otherwise its deadline had passed. Before the context is destroyed every
      signalled fence was taken by a look. */
  lemma RetiredAsDeserved(tr: seq<State>, i: nat)
    requires Run(tr) && i < |tr[|tr| - 1].retired|
    ensures var s := tr[|tr| - 1]; var r := s.retired[i];
      && (!s.phase.Destroyed? ==> r.look.Some?)
      && (r.look.None? ==> !r.ok)
      && (r.look.Some? ==> (r.ok <==> r.fence.seqno <= r.look.value.cur) && r.look.value.cur <= s.sem)
      && (r.look.Some? && !r.ok ==> r.fence.deadline <= r.look.value.now <= s.clock)
  {
    JustifiedRun(tr);
    assert Deserved(tr[|tr| - 1], tr[|tr| - 1].retired[i]);
  }

  /** The pending list is sorted in every reachable state. */
  lemma PendingSorted(tr: seq<State>)
    requires Run(tr)
    ensures Sorted(tr[|tr| - 1].ctx.pending)
  {
    RunInv(tr);
  }

  // No callback is forgotten

  /** Somebody still has the registered callback: the context stores it, its own thread is about to
      store or cancel it, or the thread that displaced it is about to cancel it. */
  ghost predicate Tracked(s: State, cb: nat) {
    && cb < |s.threads|
    && (|| s.ctx.stored == Some(cb) || Storing(s.threads[cb]) || s.threads[cb].UnregisterNew?
        || exists t :: 0 <= t < |s.threads| && s.threads[t] == UnregisterOld(cb))
  }

  ghost predicate AllTracked(s: State) {
    forall cb :: cb in s.regs && s.regs[cb].status.Registered? ==> Tracked(s, cb)
  }

  lemma StoreTracked(s: State, t: nat, cb: nat)
    requires Enabled(s, DoStore(t)) && cb in s.regs && s.regs[cb].status.Registered? && Tracked(s, cb)
    ensures Tracked(Apply(s, DoStore(t)), cb)
  {
    var s' := Apply(s, DoStore(t));
    if s.ctx.stored == Some(cb) && cb != t && s'.ctx.stored != Some(cb) {
      assert s'.threads[t] == UnregisterOld(cb);
    } else if u :| 0 <= u < |s.threads| && s.threads[u] == UnregisterOld(cb) {
      assert s'.threads[u] == UnregisterOld(cb);
    }
  }

  lemma UnregisterTracked(s: State, t: nat, cb: nat)
    requires Enabled(s, DoUnregister(t)) && cb in s.regs && Tracked(s, cb)
    requires Apply(s, DoUnregister(t)).regs[cb].status.Registered?
    ensures Tracked(Apply(s, DoUnregister(t)), cb)
  {
    var s' := Apply(s, DoUnregister(t));
    if u :| 0 <= u < |s.threads| && s.threads[u] == UnregisterOld(cb) {
      assert s'.threads[u] == UnregisterOld(cb);
    }
  }

  lemma OtherTracked(s: State, l: Label, cb: nat)
    requires Structure(s) && Enabled(s, l) && !l.DoStore? && !l.DoUnregister?
    requires cb in s.regs && s.regs[cb].status.Registered? && Tracked(s, cb)
    requires cb in Apply(s, l).regs && Apply(s, l).regs[cb].status.Registered?
    ensures Tracked(Apply(s, l), cb)
  {
    var s' := Apply(s, l);
    if l.DoCbLock? {
      assert ThreadOk(s, l.t);
    }
    if u :| 0 <= u < |s.threads| && s.threads[u] == UnregisterOld(cb) {
      assert s'.threads[u] == UnregisterOld(cb);
    }
  }

  lemma TrackedStep(s: State, l: Label, cb: nat)
    requires Structure(s) && AllTracked(s) && Enabled(s, l)
    requires cb in Apply(s, l).regs && Apply(s, l).regs[cb].status.Registered?
    ensures Tracked(Apply(s, l), cb)
  {
    if l == RegSuccess(cb) {
      assert Storing(Apply(s, l).threads[cb]);
    } else {
      assert cb in s.regs && s.regs[cb].status.Registered?;
      if l.DoStore? {
        StoreTracked(s, l.t, cb);
      } else if l.DoUnregister? {
        UnregisterTracked(s, l.t, cb);
      } else {
        OtherTracked(s, l, cb);
      }
    }
  }

  lemma {:induction false} TrackedRun(tr: seq<State>)
    requires Run(tr)
    ensures AllTracked(tr[|tr| - 1])
  {
    var n := |tr| - 1;
    if n > 0 {
      TrackedRun(tr[..n]);
      RunInv(tr[..n]);
      var s' := tr[n];
      assert Next(tr[n - 1], s');
      var l :| Enabled(tr[n - 1], l) && s' == Apply(tr[n - 1], l);
      forall cb | cb in s'.regs && s'.regs[cb].status.Registered? ensures Tracked(s', cb) {
        TrackedStep(tr[n - 1], l, cb);
      }
    }
  }

  /** With all threads at rest at most one callback is registered, the stored one; and none is once the
      context has been destroyed. */
  lemma OneCallbackAtRest(tr: seq<State>, cb: nat)
    requires Run(tr) && AllDone(tr[|tr| - 1].threads)
    requires cb in tr[|tr| - 1].regs && tr[|tr| - 1].regs[cb].status.Registered?
    ensures tr[|tr| - 1].ctx.stored == Some(cb)
    ensures !tr[|tr| - 1].phase.Destroyed?
  {
    TrackedRun(tr);
    EmptiedRun(tr);
  }

  // Where waited-for values and timeouts come from

  predicate HasValue(fs: seq<Fence>, w: nat) {
    exists i :: 0 <= i < |fs| && fs[i].seqno == w
  }

  predicate HasDeadline(fs: seq<Fence>, d: nat) {
    exists i :: 0 <= i < |fs| && fs[i].deadline == d
  }

  /** Some fence of `fs` has both this value and this deadline. */
  predicate HasBoth(fs: seq<Fence>, w: nat, d: nat) {
    exists i :: 0 <= i < |fs| && fs[i].seqno == w && fs[i].deadline == d
  }

  /** What a thread is to wait for, and until when, was taken from one fence. */
  predicate PcTraced(pc: Pc, fs: seq<Fence>) {
    match pc
    case Signal(_, _, w, d, _) => w != 0 ==> HasBoth(fs, w, d)
    case Register(w, d) => HasBoth(fs, w, d)
    case SetTimer(w, d) => HasBoth(fs, w, d)
    case _ => true
  }

  predicate Traced(s: State) {
    && (forall f :: f in s.ctx.pending ==> f in s.added)
    && (forall t :: 0 <= t < |s.threads| ==> PcTraced(s.threads[t], s.added))
    && (forall cb :: cb in s.regs ==> HasValue(s.added, s.regs[cb].value))
    && (s.timer.Some? ==> HasDeadline(s.added, s.timer.value))
  }

  lemma PcTracedGrows(pc: Pc, fs: seq<Fence>, f: Fence)
    requires PcTraced(pc, fs)
    ensures PcTraced(pc, fs + [f])
  {
    var more := fs + [f];
    assert forall i :: 0 <= i < |fs| ==> more[i] == fs[i];
  }

  lemma ProcessTraced(c: Ctx, fs: seq<Fence>, cur: nat, now: nat)
    requires Sorted(c.pending) && forall f :: f in c.pending ==> f in fs
    ensures var o := Process(c, cur, now, true); o.newWait != 0 ==> HasBoth(fs, o.newWait, o.newTimeout)
  {
    var o := Process(c, cur, now, true);
    ProcessFacts(c, cur, now, true);
    ProcessWaiter(c, cur, now);
    if o.newWait != 0 {
      assert o.ctx.pending[0] in c.pending;
    }
  }

  lemma PendingTracedStep(s: State, l: Label, f: Fence)
    requires Sorted(s.ctx.pending) && Traced(s) && Enabled(s, l) && f in Apply(s, l).ctx.pending
    ensures f in Apply(s, l).added
  {
    if l.InsertFence? {
      var new_ := Fence(|s.added|, s.threads[l.t].seqno, s.threads[l.t].deadline);
      var k := SplitPoint(s.ctx.pending, new_.seqno);
      InsertAt(s.ctx.pending, new_, k);
    } else if l.DoProcess? {
      ProcessFacts(s.ctx, s.threads[l.t].cur, s.threads[l.t].now, s.threads[l.t].Sampled?);
    }
  }

  lemma ThreadTracedStep(s: State, l: Label, t: nat)
    requires Sorted(s.ctx.pending) && Traced(s) && Enabled(s, l) && t < |Apply(s, l).threads|
    ensures PcTraced(Apply(s, l).threads[t], Apply(s, l).added)
  {
    if l.InsertFence? {
      PcTracedGrows(s.threads[t], s.added, Apply(s, l).added[|s.added|]);
    } else if l.DoProcess? && s.threads[l.t].Sampled? {
      ProcessTraced(s.ctx, s.added, s.threads[l.t].cur, s.threads[l.t].now);
    }
  }

  lemma AddedGrows(s: State, l: Label)
    requires Enabled(s, l)
    ensures s.added <= Apply(s, l).added
  {}

  lemma RegTracedStep(s: State, l: Label, cb: nat)
    requires Traced(s) && Enabled(s, l) && cb in Apply(s, l).regs
    ensures HasValue(Apply(s, l).added, Apply(s, l).regs[cb].value)
  {
    AddedGrows(s, l);
    assert cb in s.regs ==> HasValue(s.added, s.regs[cb].value);
    assert l.RegSuccess? ==> PcTraced(s.threads[l.t], s.added);
  }

  lemma TimerTracedStep(s: State, l: Label)
    requires Traced(s) && Enabled(s, l) && Apply(s, l).timer.Some?
    ensures HasDeadline(Apply(s, l).added, Apply(s, l).timer.value)
  {
    AddedGrows(s, l);
    assert l.DoSetTimer? ==> PcTraced(s.threads[l.t], s.added);
  }

  lemma {:induction false} TracedRun(tr: seq<State>)
    requires Run(tr)
    ensures Traced(tr[|tr| - 1])
  {
    var n := |tr| - 1;
    if n > 0 {
      TracedRun(tr[..n]);
      RunInv(tr[..n]);
      assert Next(tr[n - 1], tr[n]);
      var l :| Enabled(tr[n - 1], l) && tr[n] == Apply(tr[n - 1], l);
      TracedStep(tr[n - 1], l);
    }
  }

  lemma TracedStep(s: State, l: Label)
    requires Sorted(s.ctx.pending) && Traced(s) && Enabled(s, l)
    ensures Traced(Apply(s, l))
  {
    var s' := Apply(s, l);
    forall f | f in s'.ctx.pending ensures f in s'.added {
      PendingTracedStep(s, l, f);
    }
    forall t | 0 <= t < |s'.threads| ensures PcTraced(s'.threads[t], s'.added) {
      ThreadTracedStep(s, l, t);
    }
    forall cb | cb in s'.regs ensures HasValue(s'.added, s'.regs[cb].value) {
      RegTracedStep(s, l, cb);
    }
    if s'.timer.Some? {
      TimerTracedStep(s, l);
    }
  }

  /** Callbacks wait only for values of fences that were added, the timer is only ever set to the
      deadline of one, and a thread about to register has value and deadline from the same fence. */
  lemma WaitsForFences(tr: seq<State>)
    requires Run(tr)
    ensures var s := tr[|tr| - 1];
      && (forall cb :: cb in s.regs ==> HasValue(s.added, s.regs[cb].value))
      && (s.timer.Some? ==> HasDeadline(s.added, s.timer.value))
      && (forall t :: 0 <= t < |s.threads| && s.threads[t].Register? ==>
            HasBoth(s.added, s.threads[t].newWait, s.threads[t].newTimeout))
  {
    TracedRun(tr);
    var s := tr[|tr| - 1];
    forall t | 0 <= t < |s.threads| && s.threads[t].Register?
      ensures HasBoth(s.added, s.threads[t].newWait, s.threads[t].newTimeout)
    {
      assert PcTraced(s.threads[t], s.added);
    }
  }
}
