/**
 When a semaphore-surface context stops looking after a fence (nvidia-drm-fence.c), and what can still
 help that fence.
 */
module SemsurfStranded {
  import opened Base
  import opened SemsurfContext
  import opened SemsurfProtocol
  import opened SemsurfFences

  ghost predicate Path(tr: seq<State>) {
    |tr| > 0 && forall i :: 0 < i < |tr| ==> Next(tr[i - 1], tr[i])
  }

  lemma Extend(tr: seq<State>, l: Label, s: State) returns (tr': seq<State>)
    requires Path(tr) && Enabled(tr[|tr| - 1], l) && s == Apply(tr[|tr| - 1], l)
    ensures Path(tr') && tr'[0] == tr[0] && tr'[|tr'| - 1] == s
  {
    tr' := tr + [s];
  }

  /** A live context none of whose threads is doing anything. */
  predicate AtRest(s: State) {
    s.phase.Live? && AllDone(s.threads)
  }

  // Whether anybody will come back without being asked

  /** Steps that the context does not cause: time and the semaphore move, user space calls. */
  predicate Outside(l: Label) {
    l.Advance? || l.Tick? || l.NewFence? || l.Close?
  }

  /** However far semaphore and clock move, no callback fires and no timeout work starts. */
  ghost predicate Asleep(s: State) {
    forall v: nat, c: nat, l :: s.sem <= v < TWO_64 && s.clock <= c && Enabled(s.(sem := v, clock := c), l) ==>
      Outside(l)
  }

  predicate NothingArmed(s: State) {
    s.timer.None? && forall cb :: cb in s.regs ==> !s.regs[cb].status.Registered?
  }

  lemma ArmedWakes(tr: seq<State>, cb: nat)
    requires Run(tr) && AtRest(tr[|tr| - 1])
    requires cb in tr[|tr| - 1].regs && tr[|tr| - 1].regs[cb].status.Registered?
    ensures !Asleep(tr[|tr| - 1])
  {
    var s := tr[|tr| - 1];
    TracedRun(tr);
    HonestRun(tr);
    var w := s.regs[cb].value;
    assert HasValue(s.added, w);
    var v := if w <= s.sem then s.sem else w;
    assert Enabled(s.(sem := v, clock := s.clock), Fire(cb));
  }

  lemma TimerWakes(tr: seq<State>)
    requires Run(tr) && AtRest(tr[|tr| - 1]) && tr[|tr| - 1].timer.Some?
    ensures !Asleep(tr[|tr| - 1])
  {
    var s := tr[|tr| - 1];
    HonestRun(tr);
    var c := if s.timer.value <= s.clock then s.clock else s.timer.value;
    assert Enabled(s.(sem := s.sem, clock := c), TimeoutWork);
  }

  lemma UnarmedSleeps(s: State, v: nat, c: nat, l: Label)
    requires AtRest(s) && NothingArmed(s) && Enabled(s.(sem := v, clock := c), l)
    ensures Outside(l)
  {}

  /** In a reachable state at rest, whatever failed before, nobody comes back to the pending fences
      on their own exactly when no timer is set and no callback is registered. */
  lemma AsleepIffUnarmed(tr: seq<State>)
    requires Run(tr) && AtRest(tr[|tr| - 1])
    ensures Asleep(tr[|tr| - 1]) <==> NothingArmed(tr[|tr| - 1])
  {
    var s := tr[|tr| - 1];
    if NothingArmed(s) {
      forall v: nat, c: nat, l | s.sem <= v < TWO_64 && s.clock <= c && Enabled(s.(sem := v, clock := c), l)
        ensures Outside(l)
      {
        UnarmedSleeps(s, v, c, l);
      }
    } else if s.timer.Some? {
      TimerWakes(tr);
    } else {
      var cb :| cb in s.regs && s.regs[cb].status.Registered?;
      ArmedWakes(tr, cb);
    }
  }

  // What a look does for the head

  /** A look finds nothing to do, and leaves without registering, exactly when the head is neither
      reached nor expired and its value is the one already waited for. */
  lemma IdleLook(c: Ctx, cur: nat, now: nat)
    requires Sorted(c.pending) && c.pending != []
    ensures var h := c.pending[0];
      (Process(c, cur, now, true) == Outcome(c, [], [], 0, 0)) <==>
      (cur < h.seqno == c.currentWait && now < h.deadline)
  {
    var h := c.pending[0];
    if h.seqno > cur {
      ReachedPrefix(c.pending, cur, 0);
    }
  }

  /** The thread will not register anything: it is done, or its looks find nothing to do. */
  predicate Passive(pc: Pc, h: Fence) {
    match pc
    case AddPending(seqno, _) => h.seqno <= seqno
    case Sample(_) => true
    case Sampled(cur, now, _) => cur < h.seqno && now < h.deadline
    case Signal(finished, timedOut, w, _, _) => finished == [] && timedOut == [] && w == 0
    case Done => true
    case _ => false
  }

  /** The head's value is waited for, but no thread, callback or timer will act on that. */
  predicate Forsaken(s: State, h: Fence) {
    && s.ctx.pending != [] && s.ctx.pending[0] == h && h.seqno == s.ctx.currentWait && Sorted(s.ctx.pending)
    && s.timer.None?
    && (forall cb :: cb in s.regs ==> !s.regs[cb].status.Registered? && !s.regs[cb].status.Firing?)
    && (forall t :: 0 <= t < |s.threads| ==> Passive(s.threads[t], h))
  }

  /** What can help a forsaken head: a fence with a lower value, a look that samples the semaphore
      or the clock late enough, or the end of the context. */
  predicate Rescues(s: State, l: Label, h: Fence) {
    match l
    case NewFence(seqno, _) => seqno < h.seqno
    case DoSample(_, _, _) => h.seqno <= s.sem || h.deadline <= s.clock
    case Destroy => true
    case _ => false
  }

  lemma ForsakenLook(s: State, t: nat, h: Fence)
    requires Forsaken(s, h) && Enabled(s, DoProcess(t))
    ensures Forsaken(Apply(s, DoProcess(t)), h)
  {
    assert Passive(s.threads[t], h);
    IdleLook(s.ctx, s.threads[t].cur, s.threads[t].now);
  }

  lemma ForsakenSample(s: State, l: Label, h: Fence)
    requires Forsaken(s, h) && l.DoSample? && Enabled(s, l) && !Rescues(s, l, h)
    ensures Forsaken(Apply(s, l), h)
  {
    RebuildExact(l.maxSubmitted, s.sem);
  }

  lemma ForsakenInsert(s: State, t: nat, h: Fence)
    requires Forsaken(s, h) && Enabled(s, InsertFence(t))
    ensures Forsaken(Apply(s, InsertFence(t)), h)
  {
    assert Passive(s.threads[t], h);
    InsertSorted(s.ctx.pending, Fence(|s.added|, s.threads[t].seqno, s.threads[t].deadline));
  }

  lemma ForsakenStep(s: State, l: Label, h: Fence)
    requires Forsaken(s, h) && Enabled(s, l) && !Rescues(s, l, h)
    ensures Forsaken(Apply(s, l), h)
  {
    if l.DoProcess? {
      ForsakenLook(s, l.t, h);
    } else if l.DoSample? {
      ForsakenSample(s, l, h);
    } else if l.InsertFence? {
      ForsakenInsert(s, l.t, h);
    } else {
      ForsakenOther(s, l, h);
    }
  }

  lemma ForsakenOther(s: State, l: Label, h: Fence)
    requires Forsaken(s, h) && Enabled(s, l) && !Rescues(s, l, h)
    requires !l.DoProcess? && !l.DoSample? && !l.InsertFence?
    ensures Forsaken(Apply(s, l), h)
  {}

  ghost predicate UnrescuedNext(s: State, s': State, h: Fence) {
    exists l :: Enabled(s, l) && s' == Apply(s, l) && !Rescues(s, l, h)
  }

  ghost predicate Unrescued(tr: seq<State>, h: Fence) {
    |tr| > 0 && forall i :: 0 < i < |tr| ==> UnrescuedNext(tr[i - 1], tr[i], h)
  }

  /** A forsaken head stays pending and forsaken, however many fences with larger values are added
      and however often they make threads look, until one of the rescues happens. */
  lemma {:induction false} StaysForsaken(tr: seq<State>, h: Fence)
    requires Unrescued(tr, h) && Forsaken(tr[0], h)
    ensures Forsaken(tr[|tr| - 1], h)
  {
    var n := |tr| - 1;
    if n > 0 {
      StaysForsaken(tr[..n], h);
      assert UnrescuedNext(tr[n - 1], tr[n], h);
      var l :| Enabled(tr[n - 1], l) && tr[n] == Apply(tr[n - 1], l) && !Rescues(tr[n - 1], l, h);
      ForsakenStep(tr[n - 1], l, h);
    }
  }

  /** A registration that fails for the head's value forsakes the head exactly when every other
      thread is passive and nothing is armed or firing. */
  lemma FailureForsakes(s: State, t: nat)
    requires Structure(s) && Enabled(s, RegFail(t)) && s.ctx.pending != []
    requires s.threads[t].newWait == s.ctx.currentWait == s.ctx.pending[0].seqno
    ensures var h := s.ctx.pending[0];
      Forsaken(Apply(s, RegFail(t)), h) <==>
        && s.timer.None?
        && (forall cb :: cb in s.regs ==> !s.regs[cb].status.Registered? && !s.regs[cb].status.Firing?)
        && (forall u :: 0 <= u < |s.threads| && u != t ==> Passive(s.threads[u], h))
  {
    var s', h := Apply(s, RegFail(t)), s.ctx.pending[0];
    assert forall u :: 0 <= u < |s.threads| && u != t ==> s'.threads[u] == s.threads[u];
    if Forsaken(s', h) {
      forall u | 0 <= u < |s.threads| && u != t ensures Passive(s.threads[u], h) {
        assert Passive(s'.threads[u], h);
      }
    }
  }

  lemma UnarmedForsakes(tr: seq<State>)
    requires Run(tr) && AtRest(tr[|tr| - 1]) && NothingArmed(tr[|tr| - 1]) && tr[|tr| - 1].ctx.pending != []
    requires tr[|tr| - 1].ctx.currentWait == tr[|tr| - 1].ctx.pending[0].seqno
    ensures Forsaken(tr[|tr| - 1], tr[|tr| - 1].ctx.pending[0])
  {
    RunInv(tr);
    var s := tr[|tr| - 1];
    forall cb | cb in s.regs ensures !s.regs[cb].status.Firing? {
      assert RegOk(s, cb);
    }
  }

  /** At rest, with nothing armed, the next look finds the head still to come: it registers a
      callback for it exactly if the head's value is not already the waited-for one. So a fence left
      behind by a failed allocation is picked up by any later look, and one left behind by a failed
      registration is not. */
  lemma NextLook(tr: seq<State>, cur: nat, now: nat)
    requires Run(tr) && AtRest(tr[|tr| - 1]) && Asleep(tr[|tr| - 1]) && tr[|tr| - 1].ctx.pending != []
    requires cur < tr[|tr| - 1].ctx.pending[0].seqno && now < tr[|tr| - 1].ctx.pending[0].deadline
    ensures var s := tr[|tr| - 1]; var h := s.ctx.pending[0];
      && s.failed
      && (Process(s.ctx, cur, now, true).newWait == h.seqno <==> s.ctx.currentWait != h.seqno)
      && (Forsaken(s, h) <==> s.ctx.currentWait == h.seqno)
  {
    RunInv(tr);
    AsleepIffUnarmed(tr);
    var s := tr[|tr| - 1];
    if !s.failed {
      QuiescentIsArmed(tr);
    }
    ReachedPrefix(s.ctx.pending, cur, 0);
    if s.ctx.currentWait == s.ctx.pending[0].seqno {
      UnarmedForsakes(tr);
    }
  }

  // The witness

  /** The run in which the only fence's registration fails. */
  function FailingRun(): (tr: seq<State>)
    ensures |tr| == 7
  {
    var f := Fence(0, 1, 10);
    var s1 := Init.(threads := [AddPending(1, 10)]);
    var s2 := Init.(threads := [Sample(0)], ctx := Ctx([f], 0, None), added := [f]);
    var s3 := s2.(threads := [Sampled(0, 0, 0)]);
    var s4 := s2.(threads := [Signal([], [], 1, 10, Look(0, 0))], ctx := Ctx([f], 1, None));
    [Init, s1, s2, s3, s4, s4.(threads := [Register(1, 10)]), s4.(threads := [Done], failed := true)]
  }

  lemma FirstProcess(f: Fence)
    requires f.seqno > 0 && f.deadline > 0
    ensures Process(Ctx([f], 0, None), 0, 0, true)
         == Outcome(Ctx([f], f.seqno, None), [], [], f.seqno, f.deadline)
  {
    ReachedPrefix([f], 0, 0);
  }

  lemma FailingStart()
    ensures var tr := FailingRun(); Next(tr[0], tr[1]) && Next(tr[1], tr[2]) && Next(tr[2], tr[3])
  {
    var tr := FailingRun();
    assert tr[1] == Apply(tr[0], NewFence(1, 10));
    assert tr[2] == Apply(tr[1], InsertFence(0));
    assert tr[3] == Apply(tr[2], DoSample(0, false, 0));
  }

  lemma FailingMiddle()
    ensures var tr := FailingRun(); Next(tr[3], tr[4])
  {
    FirstProcess(Fence(0, 1, 10));
    var tr := FailingRun();
    assert tr[4] == Apply(tr[3], DoProcess(0));
  }

  lemma FailingEnd()
    ensures var tr := FailingRun(); Next(tr[4], tr[5]) && Next(tr[5], tr[6])
  {
    var tr := FailingRun();
    assert tr[5] == Apply(tr[4], SignalEnd(0));
    assert tr[6] == Apply(tr[5], RegFail(0));
  }

  /** A run that ends with a forsaken fence: the timer is set only after a successful registration,
      so the timeout does not help it. */
  lemma FailureCanStrand()
    ensures Run(FailingRun())
    ensures var s := FailingRun()[6];
      AtRest(s) && Asleep(s) && Forsaken(s, Fence(0, 1, 10))
  {
    FailingStart();
    FailingMiddle();
    FailingEnd();
    AsleepIffUnarmed(FailingRun());
  }
}
