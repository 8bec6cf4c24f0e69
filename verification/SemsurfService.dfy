/**
 Whether a semaphore-surface context serves its first pending fence (nvidia-drm-fence.c): the exact
 condition, over every later run in which user space makes no call and nothing fails.
 */
module SemsurfService {
  import opened Base
  import opened SemsurfContext
  import opened SemsurfProtocol
  import opened SemsurfFences
  import opened SemsurfStranded

  /** Steps of the context, RM, time and the semaphore, without failures and without calls from
      user space. */
  predicate Calm(l: Label) {
    !(l.NewFence? || l.InsertFence? || l.Close? || l.Destroy? || Fails(l))
  }

  ghost predicate CalmNext(s: State, s': State) {
    exists l :: Enabled(s, l) && Calm(l) && s' == Apply(s, l)
  }

  ghost predicate CalmPath(tr: seq<State>) {
    |tr| > 0 && forall i :: 0 < i < |tr| ==> CalmNext(tr[i - 1], tr[i])
  }

  lemma CalmExtend(tr: seq<State>, l: Label, s: State) returns (tr': seq<State>)
    requires CalmPath(tr) && Calm(l) && Enabled(tr[|tr| - 1], l) && s == Apply(tr[|tr| - 1], l)
    ensures CalmPath(tr') && tr'[0] == tr[0] && tr'[|tr'| - 1] == s
  {
    tr' := tr + [s];
  }

  lemma CalmJoin(a: seq<State>, b: seq<State>)
    requires CalmPath(a) && CalmPath(b) && a[|a| - 1] == b[0]
    ensures CalmPath(a + b[1..]) && (a + b[1..])[0] == a[0]
    ensures (a + b[1..])[|a + b[1..]| - 1] == b[|b| - 1]
  {
    var tr := a + b[1..];
    forall i | 0 < i < |tr| ensures CalmNext(tr[i - 1], tr[i]) {
      if i >= |a| {
        assert tr[i] == b[i - |a| + 1] && tr[i - 1] == b[i - |a|];
      }
    }
  }

  // The head, and looks at it

  predicate IsHead(s: State, h: Fence) {
    s.ctx.pending != [] && s.ctx.pending[0] == h && h !in s.ctx.pending[1..]
  }

  predicate Gone(s: State, h: Fence) { h !in s.ctx.pending }

  /** A look that samples now finds the head reached or expired. */
  predicate Due(s: State, h: Fence) { h.seqno <= s.sem || h.deadline <= s.clock }

  lemma ProcessKeepsOrTakes(c: Ctx, cur: nat, now: nat, want: bool)
    requires Sorted(c.pending) && c.pending != [] && c.pending[0] !in c.pending[1..]
    ensures var h := c.pending[0]; var o := Process(c, cur, now, want);
      if h.seqno <= cur || h.deadline <= now then h !in o.ctx.pending
      else o.ctx.pending == c.pending && o.finished == [] && o.timedOut == []
  {
    var h, o := c.pending[0], Process(c, cur, now, want);
    ProcessFacts(c, cur, now, want);
    if h.seqno <= cur || h.deadline <= now {
      assert o.ctx.pending != [] ==> o.ctx.pending[0] != h;
      var n := |c.pending| - |o.ctx.pending|;
      assert o.ctx.pending == c.pending[n..];
      assert n >= 1;
      assert forall f :: f in c.pending[n..] ==> f in c.pending[1..];
    } else {
      ReachedPrefix(c.pending, cur, 0);
    }
  }

  /** The thread's next look takes the head off. */
  predicate LatePc(s: State, pc: Pc, h: Fence) {
    match pc
    case Sample(_) => Due(s, h)
    case CbLock(_) => Due(s, h)
    case CbSample => Due(s, h)
    case Sampled(cur, now, _) => h.seqno <= cur || h.deadline <= now
    case CbSampled(cur, now) => h.seqno <= cur || h.deadline <= now
    case _ => false
  }

  ghost predicate Late(s: State, h: Fence) {
    exists t :: 0 <= t < |s.threads| && LatePc(s, s.threads[t], h)
  }

  lemma HeadStep(s: State, l: Label, h: Fence)
    requires Structure(s) && Enabled(s, l) && Calm(l) && IsHead(s, h)
    ensures Gone(Apply(s, l), h) || Apply(s, l).ctx.pending == s.ctx.pending
  {
    if l.DoProcess? {
      ProcessKeepsOrTakes(s.ctx, s.threads[l.t].cur, s.threads[l.t].now, s.threads[l.t].Sampled?);
    }
  }

  lemma LateThreadStep(s: State, l: Label, t: nat, h: Fence)
    requires Structure(s) && Enabled(s, l) && Calm(l) && IsHead(s, h)
    requires t < |s.threads| && LatePc(s, s.threads[t], h)
    ensures Gone(Apply(s, l), h) || LatePc(Apply(s, l), Apply(s, l).threads[t], h)
  {
    if l == DoProcess(t) {
      ProcessKeepsOrTakes(s.ctx, s.threads[t].cur, s.threads[t].now, s.threads[t].Sampled?);
    } else if l.DoSample? {
      RebuildExact(l.maxSubmitted, s.sem);
    }
  }

  lemma LateStep(s: State, l: Label, h: Fence)
    requires Structure(s) && Enabled(s, l) && Calm(l) && IsHead(s, h) && Late(s, h)
    ensures Gone(Apply(s, l), h) || (IsHead(Apply(s, l), h) && Late(Apply(s, l), h))
  {
    var t :| 0 <= t < |s.threads| && LatePc(s, s.threads[t], h);
    HeadStep(s, l, h);
    LateThreadStep(s, l, t, h);
  }

  // The head's value is waited for

  /** The thread has nothing in hand that could register, store or cancel a callback or set the
      timer, unless the head is taken off first. */
  predicate QuietPc(s: State, pc: Pc, h: Fence) {
    match pc
    case Signal(_, _, w, _, _) => w == 0
    case CbLock(cb) => cb in s.regs && s.regs[cb].value != h.seqno
    case _ => pc.Done? || Looks(pc)
  }

  predicate Quiet(s: State, h: Fence) {
    h.seqno == s.ctx.currentWait && forall t :: 0 <= t < |s.threads| ==> QuietPc(s, s.threads[t], h)
  }

  /** While its value is waited for, a look takes the head off or changes nothing. */
  lemma QuietLook(c: Ctx, cur: nat, now: nat, want: bool, h: Fence)
    requires Sorted(c.pending) && c.pending != [] && c.pending[0] == h && h !in c.pending[1..]
    requires h.seqno == c.currentWait
    ensures var o := Process(c, cur, now, want);
      h !in o.ctx.pending || (o.ctx.currentWait == c.currentWait && o.newWait == 0)
  {
    ProcessKeepsOrTakes(c, cur, now, want);
    if want && cur < h.seqno && now < h.deadline {
      IdleLook(c, cur, now);
    }
  }

  lemma QuietProcess(s: State, t: nat, h: Fence)
    requires Structure(s) && Enabled(s, DoProcess(t)) && IsHead(s, h) && Quiet(s, h)
    ensures Gone(Apply(s, DoProcess(t)), h) || Quiet(Apply(s, DoProcess(t)), h)
  {
    QuietLook(s.ctx, s.threads[t].cur, s.threads[t].now, s.threads[t].Sampled?, h);
  }

  lemma QuietFire(s: State, cb: nat, h: Fence)
    requires Structure(s) && Enabled(s, Fire(cb)) && Quiet(s, h)
    ensures Late(Apply(s, Fire(cb)), h) || Quiet(Apply(s, Fire(cb)), h)
  {
    var s' := Apply(s, Fire(cb));
    if s.regs[cb].value == h.seqno {
      assert LatePc(s', s'.threads[|s.threads|], h);
    } else {
      forall t | 0 <= t < |s'.threads| ensures QuietPc(s', s'.threads[t], h) {
        assert t < |s.threads| ==> QuietPc(s, s.threads[t], h);
      }
    }
  }

  lemma QuietOther(s: State, l: Label, h: Fence)
    requires Structure(s) && Enabled(s, l) && Calm(l) && Quiet(s, h) && !l.DoProcess? && !l.Fire?
    ensures Quiet(Apply(s, l), h)
  {
    var s' := Apply(s, l);
    assert l.DoCbLock? ==> QuietPc(s, s.threads[l.t], h);
    forall t | 0 <= t < |s'.threads| ensures QuietPc(s', s'.threads[t], h) {
      assert t < |s.threads| ==> QuietPc(s, s.threads[t], h);
    }
  }

  lemma QuietStep(s: State, l: Label, h: Fence)
    requires Structure(s) && Enabled(s, l) && Calm(l) && IsHead(s, h) && Quiet(s, h)
    ensures var s' := Apply(s, l); Gone(s', h) || (IsHead(s', h) && (Late(s', h) || Quiet(s', h)))
  {
    HeadStep(s, l, h);
    if l.DoProcess? {
      QuietProcess(s, l.t, h);
    } else if l.Fire? {
      QuietFire(s, l.cb, h);
    } else {
      QuietOther(s, l, h);
    }
  }

  function Latest(a: nat, b: nat): nat { if a <= b then b else a }

  /** The look that the timer starts cannot come too early. */
  predicate TimerCovers(s: State, h: Fence) {
    s.timer.Some? && (h.deadline <= Latest(s.timer.value, s.clock) || h.seqno <= s.sem)
  }

  /** The look that the callback makes cannot come too early. */
  predicate CallbackCovers(s: State, cb: nat, h: Fence) {
    cb in s.regs && s.regs[cb].status.Registered? && (h.seqno <= s.regs[cb].value || Due(s, h))
  }

  ghost predicate Covered(s: State, h: Fence) {
    TimerCovers(s, h) || exists cb :: CallbackCovers(s, cb, h)
  }

  lemma TimerCoversStep(s: State, l: Label, h: Fence)
    requires Enabled(s, l) && Calm(l) && Quiet(s, h) && TimerCovers(s, h)
    ensures TimerCovers(Apply(s, l), h) || Late(Apply(s, l), h)
  {
    var s' := Apply(s, l);
    if l.TimeoutWork? {
      assert LatePc(s', s'.threads[|s.threads|], h);
    } else {
      assert l.DoSetTimer? ==> QuietPc(s, s.threads[l.t], h);
    }
  }

  lemma CallbackCoversStep(s: State, l: Label, cb: nat, h: Fence)
    requires Structure(s) && Enabled(s, l) && Calm(l) && Quiet(s, h) && CallbackCovers(s, cb, h)
    ensures CallbackCovers(Apply(s, l), cb, h) || Late(Apply(s, l), h)
  {
    var s' := Apply(s, l);
    if l == Fire(cb) {
      assert LatePc(s', s'.threads[|s.threads|], h);
    } else if l.RegSuccess? || l.DoUnregister? || l.DoCbLock? {
      assert QuietPc(s, s.threads[l.t], h) && ThreadOk(s, l.t);
    }
  }

  lemma CoveredStep(s: State, l: Label, h: Fence)
    requires Structure(s) && Enabled(s, l) && Calm(l) && Quiet(s, h) && Covered(s, h)
    ensures Covered(Apply(s, l), h) || Late(Apply(s, l), h)
  {
    if TimerCovers(s, h) {
      TimerCoversStep(s, l, h);
    } else {
      var cb :| CallbackCovers(s, cb, h);
      CallbackCoversStep(s, l, cb, h);
    }
  }

  // The head's value is not waited for yet

  /** Whoever looks first registers the head or takes it off. */
  ghost predicate Fallow(s: State, h: Fence) {
    && (h.seqno == s.ctx.currentWait ==> h.seqno == 0)
    && (forall t :: 0 <= t < |s.threads| ==> s.threads[t].Done? || Looks(s.threads[t]))
    && (SomeoneLooks(s) || !NothingArmed(s))
  }

  lemma FallowLook(s: State, t: nat, h: Fence)
    requires Structure(s) && Enabled(s, DoProcess(t)) && s.threads[t].Sampled? && IsHead(s, h) && Fallow(s, h)
    ensures Gone(Apply(s, DoProcess(t)), h) || Waiting(Apply(s, DoProcess(t)))
  {
    var s' := Apply(s, DoProcess(t));
    ProcessKeepsOrTakes(s.ctx, s.threads[t].cur, s.threads[t].now, true);
    ProcessWaiter(s.ctx, s.threads[t].cur, s.threads[t].now);
    if !Gone(s', h) {
      assert Pursues(s'.threads[t], s'.ctx.currentWait);
    }
  }

  lemma LookerStep(s: State, l: Label, t: nat)
    requires Enabled(s, l) && Calm(l) && s.phase.Live? && t < |s.threads| && Looks(s.threads[t])
    ensures Looks(Apply(s, l).threads[t]) || (l == DoProcess(t) && s.threads[t].Sampled?)
  {}

  lemma FallowThreads(s: State, l: Label, h: Fence)
    requires Structure(s) && Enabled(s, l) && Calm(l) && s.phase.Live? && Fallow(s, h)
    requires !(l.DoProcess? && s.threads[l.t].Sampled?)
    ensures var s' := Apply(s, l); forall t :: 0 <= t < |s'.threads| ==> s'.threads[t].Done? || Looks(s'.threads[t])
    ensures Apply(s, l).ctx.currentWait == s.ctx.currentWait || Apply(s, l).ctx.currentWait == 0
  {
    var s' := Apply(s, l);
    forall t | 0 <= t < |s'.threads| ensures s'.threads[t].Done? || Looks(s'.threads[t]) {
      if t < |s.threads| && Looks(s.threads[t]) {
        LookerStep(s, l, t);
      }
    }
  }

  lemma FallowAgents(s: State, l: Label, h: Fence)
    requires Structure(s) && Enabled(s, l) && Calm(l) && s.phase.Live? && Fallow(s, h)
    requires !(l.DoProcess? && s.threads[l.t].Sampled?)
    ensures SomeoneLooks(Apply(s, l)) || !NothingArmed(Apply(s, l))
  {
    var s' := Apply(s, l);
    if SomeoneLooks(s) {
      var t :| 0 <= t < |s.threads| && Looks(s.threads[t]);
      LookerStep(s, l, t);
      assert Looks(s'.threads[t]);
    } else if l.Fire? || l.TimeoutWork? {
      assert Looks(s'.threads[|s.threads|]);
    } else {
      assert s'.regs == s.regs && s'.timer == s.timer;
    }
  }

  lemma FallowStep(s: State, l: Label, h: Fence)
    requires Structure(s) && Enabled(s, l) && Calm(l) && s.phase.Live? && IsHead(s, h) && Fallow(s, h)
    ensures var s' := Apply(s, l); Gone(s', h) || Waiting(s') || (IsHead(s', h) && Fallow(s', h))
  {
    if l.DoProcess? && s.threads[l.t].Sampled? {
      FallowLook(s, l.t, h);
    } else {
      HeadStep(s, l, h);
      FallowThreads(s, l, h);
      FallowAgents(s, l, h);
    }
  }

  // Every calm path

  ghost predicate Kept(s: State, h: Fence) {
    || Gone(s, h)
    || Waiting(s)
    || (IsHead(s, h) && (Late(s, h) || (Quiet(s, h) && Covered(s, h)) || Fallow(s, h)))
  }

  lemma CalmKeepsLive(s: State, l: Label)
    requires Enabled(s, l) && Calm(l) && s.phase.Live?
    ensures Apply(s, l).phase.Live?
  {}

  lemma GoneStep(s: State, l: Label, h: Fence)
    requires Structure(s) && Enabled(s, l) && Calm(l) && Gone(s, h)
    ensures Gone(Apply(s, l), h)
  {
    if l.DoProcess? {
      ProcessFacts(s.ctx, s.threads[l.t].cur, s.threads[l.t].now, s.threads[l.t].Sampled?);
    }
  }

  lemma KeptStep(s: State, l: Label, h: Fence)
    requires Structure(s) && Enabled(s, l) && Calm(l) && s.phase.Live? && Kept(s, h)
    ensures Kept(Apply(s, l), h)
  {
    CalmKeepsLive(s, l);
    if Gone(s, h) {
      GoneStep(s, l, h);
    } else if Waiting(s) {
      WaitingStep(s, l);
    } else if Late(s, h) {
      LateStep(s, l, h);
    } else if Fallow(s, h) {
      FallowStep(s, l, h);
    } else {
      QuietStep(s, l, h);
      CoveredStep(s, l, h);
    }
  }

  lemma {:induction false} KeptPath(tr: seq<State>, h: Fence)
    requires CalmPath(tr) && Structure(tr[0]) && tr[0].phase.Live? && Kept(tr[0], h)
    ensures Structure(tr[|tr| - 1]) && tr[|tr| - 1].phase.Live? && Kept(tr[|tr| - 1], h)
  {
    var n := |tr| - 1;
    if n > 0 {
      KeptPath(tr[..n], h);
      assert CalmNext(tr[n - 1], tr[n]);
      
      var l :| Enabled(tr[n - 1], l) && Calm(l) && tr[n] == Apply(tr[n - 1], l);
      StructureStep(tr[n - 1], l);
      CalmKeepsLive(tr[n - 1], l);
      KeptStep(tr[n - 1], l, h);
    }
  }

  lemma KeptAtRest(s: State, h: Fence)
    requires Structure(s) && AtRest(s) && Kept(s, h)
    ensures Gone(s, h) || !NothingArmed(s)
  {
    if !Gone(s, h) && Waiting(s) {
      SomeoneReturns(s);
    }
  }

  // Losing a head that is not covered

  lemma IdleCallbackLook(c: Ctx, cur: nat, now: nat)
    requires Sorted(c.pending) && c.pending != [] && cur < c.pending[0].seqno && now < c.pending[0].deadline
    ensures Process(c, cur, now, false) == Outcome(c, [], [], 0, 0)
  {
    ReachedPrefix(c.pending, cur, 0);
  }

  /** A context at rest, waiting for the value of a head that is neither reached nor expired, whose
      timer, if set, goes off too early. */
  predicate Early(s: State, h: Fence) {
    && AtRest(s) && s.sem < TWO_64 && h.seqno < TWO_64 && Sorted(s.ctx.pending) && s.ctx.pending != []
    && s.ctx.pending[0] == h && s.sem < h.seqno == s.ctx.currentWait && s.clock < h.deadline
    && (s.timer.Some? ==> s.timer.value < h.deadline)
  }

  /** In addition no callback is registered for the head's value or a larger one. */
  predicate Slipping(s: State, h: Fence) {
    Early(s, h) && forall cb :: cb in s.regs && s.regs[cb].status.Registered? ==> s.regs[cb].value < h.seqno
  }

  /** `s` with one more thread. */
  function With(s: State, pc: Pc): State {
    s.(threads := s.threads + [pc])
  }

  lemma SampleStep(s: State, pc: Pc)
    requires s.sem < TWO_64 && (pc == Sample(0) || pc.CbSample?)
    ensures var u, l := With(s, pc), DoSample(|s.threads|, false, s.sem);
      Enabled(u, l) && Apply(u, l) ==
        With(s, if pc.Sample? then Sampled(s.sem, s.clock, 0) else CbSampled(s.sem, s.clock))
  {}

  lemma ProcessStep(s: State, pc: Pc)
    requires pc == Sampled(s.sem, s.clock, 0) || pc == CbSampled(s.sem, s.clock)
    requires Process(s.ctx, s.sem, s.clock, pc.Sampled?) == Outcome(s.ctx, [], [], 0, 0)
    ensures var u, l := With(s, pc), DoProcess(|s.threads|);
      var k := Look(s.sem, s.clock);
      Enabled(u, l) && Apply(u, l) == With(s, if pc.Sampled? then Signal([], [], 0, 0, k) else CbSignal([], [], k))
  {}

  lemma EndStep(s: State, pc: Pc)
    requires pc.Signal? || pc.CbSignal?
    requires pc.finished == [] && pc.timedOut == [] && (pc.Signal? ==> pc.newWait == 0)
    ensures var u, l := With(s, pc), SignalEnd(|s.threads|);
      Enabled(u, l) && Apply(u, l) == With(s, if pc.Signal? then Done else CbQueue)
  {}

  lemma QueueStep(s: State)
    requires s.phase.Live?
    ensures var u, l := With(s, CbQueue), DoCbQueue(|s.threads|);
      Enabled(u, l) && Apply(u, l) == With(s, Sample(0))
  {}

  /** A look of the registration loop that finds nothing to do. */
  lemma IdleRound(tr0: seq<State>, s: State, h: Fence) returns (tr: seq<State>)
    requires CalmPath(tr0) && Early(s, h) && tr0[|tr0| - 1] == With(s, Sample(0))
    ensures CalmPath(tr) && tr[0] == tr0[0] && tr[|tr| - 1] == With(s, Done)
  {
    var n := |s.threads|;
    var sampled := Sampled(s.sem, s.clock, 0);
    SampleStep(s, Sample(0));
    tr := CalmExtend(tr0, DoSample(n, false, s.sem), With(s, sampled));
    IdleLook(s.ctx, s.sem, s.clock);
    ProcessStep(s, sampled);
    var idle := Signal([], [], 0, 0, Look(s.sem, s.clock));
    tr := CalmExtend(tr, DoProcess(n), With(s, idle));
    EndStep(s, idle);
    tr := CalmExtend(tr, SignalEnd(n), With(s, Done));
  }

  /** A timer that goes off before the head's deadline is used up: the look it starts finds the
      head's value already waited for, registers nothing and sets no timer. */
  lemma EarlyTimerIsLost(s: State, h: Fence) returns (tr: seq<State>)
    requires Early(s, h) && s.timer.Some?
    ensures CalmPath(tr) && tr[0] == s
    ensures tr[|tr| - 1] ==
      s.(clock := Latest(s.timer.value, s.clock), timer := None, threads := s.threads + [Done])
  {
    var c := Latest(s.timer.value, s.clock);
    tr := CalmExtend([s], Tick(c), s.(clock := c));
    var s1 := s.(clock := c, timer := None);
    tr := CalmExtend(tr, TimeoutWork, s1.(threads := s.threads + [Sample(0)]));
    tr := IdleRound(tr, s1, h);
  }

  /** What firing callback `cb` for a value below the head's leaves behind. */
  function AfterFire(s: State, cb: nat): State
    requires cb in s.regs
  {
    s.(sem := Latest(s.regs[cb].value, s.sem), regs := s.regs[cb := s.regs[cb].(status := Fired)],
       ctx := s.ctx.(stored := if s.ctx.stored == Some(cb) then None else s.ctx.stored))
  }

  lemma CallbackFires(s: State, cb: nat, h: Fence) returns (tr: seq<State>)
    requires Slipping(s, h) && cb in s.regs && s.regs[cb].status.Registered?
    ensures CalmPath(tr) && tr[0] == s
    ensures tr[|tr| - 1] == AfterFire(s, cb).(threads := s.threads + [CbSample])
  {
    var n, v := |s.threads|, Latest(s.regs[cb].value, s.sem);
    tr := CalmExtend([s], Advance(v), s.(sem := v));
    var s1 := s.(sem := v, regs := s.regs[cb := s.regs[cb].(status := Firing)]);
    tr := CalmExtend(tr, Fire(cb), s1.(threads := s.threads + [CbLock(cb)]));
    var s2 := AfterFire(s, cb);
    assert s2.regs == s1.regs[cb := s1.regs[cb].(status := Fired)];
    tr := CalmExtend(tr, DoCbLock(n), s2.(threads := s.threads + [CbSample]));
  }

  /** A callback's own look that finds nothing to do. */
  lemma IdleCallbackRound(tr0: seq<State>, s: State, h: Fence) returns (tr: seq<State>)
    requires CalmPath(tr0) && Early(s, h) && tr0[|tr0| - 1] == With(s, CbSample)
    ensures CalmPath(tr) && tr[0] == tr0[0] && tr[|tr| - 1] == With(s, Sample(0))
  {
    var n := |s.threads|;
    var sampled := CbSampled(s.sem, s.clock);
    SampleStep(s, CbSample);
    tr := CalmExtend(tr0, DoSample(n, false, s.sem), With(s, sampled));
    IdleCallbackLook(s.ctx, s.sem, s.clock);
    ProcessStep(s, sampled);
    var idle := CbSignal([], [], Look(s.sem, s.clock));
    tr := CalmExtend(tr, DoProcess(n), With(s, idle));
    EndStep(s, idle);
    tr := CalmExtend(tr, SignalEnd(n), With(s, CbQueue));
    QueueStep(s);
    tr := CalmExtend(tr, DoCbQueue(n), With(s, Sample(0)));
  }

  /** A callback for a value below the head's fires, and both its looks find nothing to do. */
  lemma LowCallbackIsLost(s: State, cb: nat, h: Fence) returns (tr: seq<State>)
    requires Slipping(s, h) && cb in s.regs && s.regs[cb].status.Registered?
    ensures CalmPath(tr) && tr[0] == s
    ensures tr[|tr| - 1] == AfterFire(s, cb).(threads := s.threads + [Done])
  {
    tr := CallbackFires(s, cb, h);
    tr := IdleCallbackRound(tr, AfterFire(s, cb), h);
    tr := IdleRound(tr, AfterFire(s, cb), h);
  }

  function Waiters(s: State): set<nat> {
    set cb | cb in s.regs && s.regs[cb].status.Registered?
  }

  /** All armed looks are used up, one after the other, and the head is still there. */
  lemma SlipsAway(s: State, h: Fence) returns (tr: seq<State>)
    requires Slipping(s, h)
    ensures CalmPath(tr) && tr[0] == s
    ensures var s' := tr[|tr| - 1]; 
      && AtRest(s') && NothingArmed(s')
      && s'.ctx.pending == s.ctx.pending && s'.ctx.currentWait == s.ctx.currentWait
    decreases |Waiters(s)|, s.timer.Some?
  {
    if Waiters(s) != {} {
      var cb :| cb in Waiters(s);
      var first := LowCallbackIsLost(s, cb, h);
      var s1 := first[|first| - 1];
      assert Waiters(s1) == Waiters(s) - {cb};
      var rest := SlipsAway(s1, h);
      CalmJoin(first, rest);
      tr := first + rest[1..];
    } else if s.timer.Some? {
      var first := EarlyTimerIsLost(s, h);
      var s1 := first[|first| - 1];
      assert Waiters(s1) == Waiters(s);
      var rest := SlipsAway(s1, h);
      CalmJoin(first, rest);
      tr := first + rest[1..];
    } else {
      assert forall cb :: cb in s.regs ==> cb !in Waiters(s);
      tr := [s];
    }
  }

  // The exact conditions

  /** Left to itself, the context never comes to rest with the head pending and nothing armed. */
  ghost predicate Served(s: State, h: Fence) {
    forall tr: seq<State> :: CalmPath(tr) && tr[0] == s && AtRest(tr[|tr| - 1]) ==>
      Gone(tr[|tr| - 1], h) || !NothingArmed(tr[|tr| - 1])
  }

  /** Something is armed; and, if the head's value is already the waited-for one, some armed look
      is sure to find the head reached or expired. */
  ghost predicate Watched(s: State, h: Fence) {
    if h.seqno == s.ctx.currentWait then Covered(s, h) else !NothingArmed(s)
  }

  lemma HeadIsUnique(tr: seq<State>)
    requires Run(tr) && tr[|tr| - 1].ctx.pending != []
    ensures IsHead(tr[|tr| - 1], tr[|tr| - 1].ctx.pending[0])
    ensures tr[|tr| - 1].ctx.pending[0].seqno < TWO_64 && tr[|tr| - 1].sem < TWO_64
  {
    var s := tr[|tr| - 1];
    var h := s.ctx.pending[0];
    TracedRun(tr);
    HonestRun(tr);
    assert h in s.ctx.pending;
    var i :| 0 <= i < |s.added| && s.added[i] == h;
    FenceInOnePlace(tr, i);
    CountPop(s.ctx.pending, h);
    if h in s.ctx.pending[1..] {
      CountMember(s.ctx.pending[1..], h);
    }
  }

  lemma WatchedIsServed(s: State, h: Fence)
    requires Structure(s) && AtRest(s) && IsHead(s, h) && Watched(s, h)
    ensures Served(s, h)
  {
    assert forall t :: 0 <= t < |s.threads| ==> s.threads[t].Done?;
    assert Kept(s, h);
    forall tr: seq<State> | CalmPath(tr) && tr[0] == s && AtRest(tr[|tr| - 1])
      ensures Gone(tr[|tr| - 1], h) || !NothingArmed(tr[|tr| - 1])
    {
      KeptPath(tr, h);
      KeptAtRest(tr[|tr| - 1], h);
    }
  }

  lemma UnwatchedIsLost(s: State, h: Fence)
    requires Structure(s) && AtRest(s) && IsHead(s, h) && h.seqno < TWO_64 && s.sem < TWO_64 && !Watched(s, h)
    ensures !Served(s, h)
  {
    var tr := [s];
    if !NothingArmed(s) {
      assert !TimerCovers(s, h);
      forall cb | cb in s.regs && s.regs[cb].status.Registered? ensures s.regs[cb].value < h.seqno && !Due(s, h) {
        assert !CallbackCovers(s, cb, h);
      }
      tr := SlipsAway(s, h);
    }
    assert CalmPath(tr) && tr[0] == s && AtRest(tr[|tr| - 1]);
  }

  /** In every reachable state at rest, whatever failed before, the first pending fence is served if
      and only if something is armed and, in case its value is already the waited-for one, either the
      timer cannot go off before its deadline or a callback is registered for its value or a larger
      one (or, if it is due already, anything is armed). */
  lemma ServedIffWatched(tr: seq<State>)
    requires Run(tr) && AtRest(tr[|tr| - 1]) && tr[|tr| - 1].ctx.pending != []
    ensures var s := tr[|tr| - 1]; Served(s, s.ctx.pending[0]) <==> Watched(s, s.ctx.pending[0])
  {
    var s := tr[|tr| - 1];
    RunInv(tr);
    HeadIsUnique(tr);
    if Watched(s, s.ctx.pending[0]) {
      WatchedIsServed(s, s.ctx.pending[0]);
    } else {
      UnwatchedIsLost(s, s.ctx.pending[0]);
    }
  }

  /** So as long as nothing failed, the first pending fence of a context at rest is served. */
  lemma UnfailedIsServed(tr: seq<State>)
    requires Run(tr) && AtRest(tr[|tr| - 1]) && !tr[|tr| - 1].failed && tr[|tr| - 1].ctx.pending != []
    ensures Served(tr[|tr| - 1], tr[|tr| - 1].ctx.pending[0])
  {
    var s := tr[|tr| - 1];
    QuiescentIsArmed(tr);
    assert CallbackCovers(s, s.ctx.stored.value, s.ctx.pending[0]);
    ServedIffWatched(tr);
  }

  // Timeouts

  /** As long as the semaphore does not reach it and the context is left to itself, the head is off
      the list or a timer is set whenever all threads are at rest. */
  ghost predicate TimesOut(s: State, h: Fence) {
    forall tr: seq<State> :: CalmPath(tr) && tr[0] == s && tr[|tr| - 1].sem < h.seqno && AtRest(tr[|tr| - 1]) ==>
      Gone(tr[|tr| - 1], h) || tr[|tr| - 1].timer.Some?
  }

  ghost predicate TimeoutKept(s: State, h: Fence) {
    Gone(s, h) || (IsHead(s, h) && (Late(s, h) || (Quiet(s, h) && TimerCovers(s, h))))
  }

  lemma {:induction false} TimeoutKeptPath(tr: seq<State>, h: Fence)
    requires CalmPath(tr) && Structure(tr[0]) && TimeoutKept(tr[0], h)
    ensures Structure(tr[|tr| - 1]) && TimeoutKept(tr[|tr| - 1], h)
  {
    var n := |tr| - 1;
    if n > 0 {
      TimeoutKeptPath(tr[..n], h);
      var s := tr[n - 1];
      assert CalmNext(s, tr[n]);
      var l :| Enabled(s, l) && Calm(l) && tr[n] == Apply(s, l);
      StructureStep(s, l);
      if Gone(s, h) {
        GoneStep(s, l, h);
      } else if Late(s, h) {
        LateStep(s, l, h);
      } else {
        QuietStep(s, l, h);
        TimerCoversStep(s, l, h);
      }
    }
  }

  lemma RestIsQuiet(s: State, h: Fence)
    requires AtRest(s) && h.seqno == s.ctx.currentWait
    ensures Quiet(s, h)
  {}

  lemma CoveredTimesOut(s: State, h: Fence)
    requires Structure(s) && AtRest(s) && IsHead(s, h) && h.seqno == s.ctx.currentWait && TimerCovers(s, h)
    ensures TimesOut(s, h)
  {
    RestIsQuiet(s, h);
    forall tr: seq<State> | CalmPath(tr) && tr[0] == s && tr[|tr| - 1].sem < h.seqno && AtRest(tr[|tr| - 1])
      ensures Gone(tr[|tr| - 1], h) || tr[|tr| - 1].timer.Some?
    {
      TimeoutKeptPath(tr, h);
    }
  }

  lemma EarlyNeverTimesOut(s: State, h: Fence)
    requires AtRest(s) && IsHead(s, h) && s.sem < h.seqno && (s.timer.None? || Early(s, h))
    ensures !TimesOut(s, h)
  {
    var tr := [s];
    if s.timer.Some? {
      tr := EarlyTimerIsLost(s, h);
    }
    assert CalmPath(tr) && tr[0] == s && tr[|tr| - 1].sem < h.seqno && AtRest(tr[|tr| - 1]);
  }

  /** In every reachable state at rest in which nothing failed, with the head unreached, the head's
      timeout is kept if and only if the timer is set and cannot go off before the head's deadline. */
  lemma TimesOutIff(tr: seq<State>)
    requires Run(tr) && AtRest(tr[|tr| - 1]) && !tr[|tr| - 1].failed && tr[|tr| - 1].ctx.pending != []
    requires tr[|tr| - 1].sem < tr[|tr| - 1].ctx.pending[0].seqno
    ensures var s := tr[|tr| - 1]; var h := s.ctx.pending[0];
      TimesOut(s, h) <==> s.timer.Some? && h.deadline <= Latest(s.timer.value, s.clock)
  {
    var s := tr[|tr| - 1];
    var h := s.ctx.pending[0];
    RunInv(tr);
    HeadIsUnique(tr);
    if TimerCovers(s, h) {
      CoveredTimesOut(s, h);
    } else {
      EarlyNeverTimesOut(s, h);
    }
  }

  // Witnesses

  lemma RunThenCalm(a: seq<State>, b: seq<State>)
    requires Path(a) && a[0] == Init && CalmPath(b) && a[|a| - 1] == b[0]
    ensures Run(a + b[1..]) && (a + b[1..])[|a + b[1..]| - 1] == b[|b| - 1]
  {
    var tr := a + b[1..];
    forall i | 0 < i < |tr| ensures Next(tr[i - 1], tr[i]) {
      if i >= |a| {
        assert tr[i] == b[i - |a| + 1] && tr[i - 1] == b[i - |a|];
        assert CalmNext(tr[i - 1], tr[i]);
      }
    }
  }

  const EARLY: Fence := Fence(0, 7, 3)
  const LOW: Fence := Fence(1, 5, 10)

  /** Thread 0 has the first fence's value in hand when a second fence with a lower value arrives. */
  lemma TwoFences() returns (tr: seq<State>)
    ensures Path(tr) && tr[0] == Init
    ensures tr[|tr| - 1] == Init.(threads := [Register(7, 3), AddPending(5, 10)],
                                  ctx := Ctx([EARLY], 7, None), added := [EARLY])
  {
    var s1 := Init.(threads := [AddPending(7, 3)]);
    tr := Extend([Init], NewFence(7, 3), s1);
    var s2 := Init.(threads := [Sample(0)], ctx := Ctx([EARLY], 0, None), added := [EARLY]);
    tr := Extend(tr, InsertFence(0), s2);
    tr := Extend(tr, DoSample(0, false, 0), s2.(threads := [Sampled(0, 0, 0)]));
    FirstProcess(EARLY);
    var s3 := s2.(threads := [Signal([], [], 7, 3, Look(0, 0))], ctx := Ctx([EARLY], 7, None));
    tr := Extend(tr, DoProcess(0), s3);
    tr := Extend(tr, SignalEnd(0), s3.(threads := [Register(7, 3)]));
    tr := Extend(tr, NewFence(5, 10), s3.(threads := [Register(7, 3), AddPending(5, 10)]));
  }

  lemma SecondProcess()
    ensures Insert([EARLY], LOW) == [LOW, EARLY]
    ensures Process(Ctx([LOW, EARLY], 7, None), 0, 0, true)
         == Outcome(Ctx([LOW, EARLY], 5, None), [], [], 5, 10)
  {
    ReachedPrefix([LOW, EARLY], 0, 0);
  }

  /** The second thread registers its value, and sets the timer for it. */
  lemma LowerRegisters() returns (tr: seq<State>)
    ensures Path(tr) && tr[0] == Init
    ensures tr[|tr| - 1] ==
      Init.(threads := [Register(7, 3), Done], ctx := Ctx([LOW, EARLY], 5, Some(1)), added := [EARLY, LOW],
            regs := map[1 := Reg(5, Registered)], timer := Some(10))
  {
    tr := TwoFences();
    SecondProcess();
    var r := Register(7, 3);
    var s1 := Init.(threads := [r, Sample(0)], ctx := Ctx([LOW, EARLY], 7, None), added := [EARLY, LOW]);
    tr := Extend(tr, InsertFence(1), s1);
    tr := Extend(tr, DoSample(1, false, 0), s1.(threads := [r, Sampled(0, 0, 0)]));
    var s2 := s1.(threads := [r, Signal([], [], 5, 10, Look(0, 0))], ctx := Ctx([LOW, EARLY], 5, None));
    tr := Extend(tr, DoProcess(1), s2);
    tr := Extend(tr, SignalEnd(1), s2.(threads := [r, Register(5, 10)]));
    var s3 := s2.(threads := [r, SetTimer(5, 10)], regs := map[1 := Reg(5, Registered)]);
    tr := Extend(tr, RegSuccess(1), s3);
    var s4 := s3.(threads := [r, Store(5)], timer := Some(10));
    tr := Extend(tr, DoSetTimer(1), s4);
    tr := Extend(tr, DoStore(1), s4.(threads := [r, Done], ctx := Ctx([LOW, EARLY], 5, Some(1))));
  }

  /** Then the first thread registers too, moves the timer forward, and finds its value unwanted. */
  lemma TimerOverwritten() returns (tr: seq<State>)
    ensures Path(tr) && tr[0] == Init
    ensures tr[|tr| - 1] ==
      Init.(threads := [Done, Done], ctx := Ctx([LOW, EARLY], 5, Some(1)), added := [EARLY, LOW],
            regs := map[0 := Reg(7, Cancelled), 1 := Reg(5, Registered)], timer := Some(3))
  {
    tr := LowerRegisters();
    var s := tr[|tr| - 1];
    var regs := map[0 := Reg(7, Registered), 1 := Reg(5, Registered)];
    tr := Extend(tr, RegSuccess(0), s.(threads := [SetTimer(7, 3), Done], regs := regs));
    var s1 := s.(threads := [Store(7), Done], regs := regs, timer := Some(3));
    tr := Extend(tr, DoSetTimer(0), s1);
    tr := Extend(tr, DoStore(0), s1.(threads := [UnregisterNew, Done]));
    var s2 := s1.(threads := [Done, Done], regs := map[0 := Reg(7, Cancelled), 1 := Reg(5, Registered)]);
    tr := Extend(tr, DoUnregister(0), s2);
  }

  /** A run in which nothing fails and which ends with every thread at rest, an overdue head, and no
      timer: only the semaphore, a new fence or the end of the context can still remove that head. */
  lemma TimeoutCanBeLost() returns (tr: seq<State>)
    ensures Run(tr)
    ensures var s := tr[|tr| - 1];
      && AtRest(s) && !s.failed && s.timer.None? && Armed(s, LOW.seqno)
      && s.ctx.pending == [LOW, EARLY] && LOW.deadline < s.clock
  {
    tr := TimerOverwritten();
    var s := tr[|tr| - 1];
    var late := EarlyTimerIsLost(s, LOW);
    late := CalmExtend(late, Tick(11), late[|late| - 1].(clock := 11));
    RunThenCalm(tr, late);
    tr := tr + late[1..];
  }

  const FIRST: Fence := Fence(0, 5, 3)
  const NEXT: Fence := Fence(1, 7, 100)

  lemma FirstRegisters() returns (tr: seq<State>)
    ensures Path(tr) && tr[0] == Init
    ensures tr[|tr| - 1] == Init.(threads := [Done], ctx := Ctx([FIRST], 5, Some(0)), added := [FIRST],
                                  regs := map[0 := Reg(5, Registered)], timer := Some(3))
  {
    tr := Extend([Init], NewFence(5, 3), Init.(threads := [AddPending(5, 3)]));
    var s1 := Init.(threads := [Sample(0)], ctx := Ctx([FIRST], 0, None), added := [FIRST]);
    tr := Extend(tr, InsertFence(0), s1);
    tr := Extend(tr, DoSample(0, false, 0), s1.(threads := [Sampled(0, 0, 0)]));
    FirstProcess(FIRST);
    var s2 := s1.(threads := [Signal([], [], 5, 3, Look(0, 0))], ctx := Ctx([FIRST], 5, None));
    tr := Extend(tr, DoProcess(0), s2);
    tr := Extend(tr, SignalEnd(0), s2.(threads := [Register(5, 3)]));
    var s3 := s2.(threads := [SetTimer(5, 3)], regs := map[0 := Reg(5, Registered)]);
    tr := Extend(tr, RegSuccess(0), s3);
    var s4 := s3.(threads := [Store(5)], timer := Some(3));
    tr := Extend(tr, DoSetTimer(0), s4);
    tr := Extend(tr, DoStore(0), s4.(threads := [Done], ctx := Ctx([FIRST], 5, Some(0))));
  }

  lemma NextAdded() returns (tr: seq<State>)
    ensures Path(tr) && tr[0] == Init
    ensures tr[|tr| - 1] ==
      Init.(threads := [Done, Done], ctx := Ctx([FIRST, NEXT], 5, Some(0)), added := [FIRST, NEXT],
            regs := map[0 := Reg(5, Registered)], timer := Some(3))
  {
    tr := FirstRegisters();
    var s := tr[|tr| - 1];
    tr := Extend(tr, NewFence(7, 100), s.(threads := [Done, AddPending(7, 100)]));
    assert Insert([FIRST], NEXT) == [FIRST, NEXT] by { InsertAt([FIRST], NEXT, 1); }
    var s1 := s.(threads := [Done, Sample(0)], ctx := Ctx([FIRST, NEXT], 5, Some(0)), added := [FIRST, NEXT]);
    tr := Extend(tr, InsertFence(1), s1);
    tr := Extend(tr, DoSample(1, false, 0), s1.(threads := [Done, Sampled(0, 0, 0)]));
    IdleLook(s1.ctx, 0, 0);
    tr := Extend(tr, DoProcess(1), s1.(threads := [Done, Signal([], [], 0, 0, Look(0, 0))]));
    tr := Extend(tr, SignalEnd(1), s1.(threads := [Done, Done]));
  }

  lemma ExpireFirst()
    ensures Process(Ctx([FIRST, NEXT], 5, Some(0)), 0, 3, true)
         == Outcome(Ctx([NEXT], 7, Some(0)), [], [FIRST], 7, 100)
  {
    ReachedPrefix([FIRST, NEXT], 0, 0);
    assert [FIRST, NEXT][1..] == [NEXT];
    assert ExpiredLen([NEXT], 3) == 0;
    assert ExpiredLen([FIRST, NEXT], 3) == 1;
  }

  /** The timer's look expires the first fence, and then registering the next one fails. */
  lemma NextFails() returns (tr: seq<State>)
    ensures Path(tr) && tr[0] == Init
    ensures tr[|tr| - 1] ==
      Init.(threads := [Done, Done, Done], ctx := Ctx([NEXT], 7, Some(0)), added := [FIRST, NEXT], clock := 3,
            regs := map[0 := Reg(5, Registered)], failed := true, retired := [Retired(FIRST, false, Some(Look(0, 3)))])
  {
    tr := NextAdded();
    var s := tr[|tr| - 1];
    tr := Extend(tr, Tick(3), s.(clock := 3));
    var s1 := s.(clock := 3, threads := [Done, Done, Sample(0)], timer := None);
    tr := Extend(tr, TimeoutWork, s1);
    tr := Extend(tr, DoSample(2, false, 0), s1.(threads := [Done, Done, Sampled(0, 3, 0)]));
    ExpireFirst();
    var s2 := s1.(ctx := Ctx([NEXT], 7, Some(0)), threads := [Done, Done, Signal([], [FIRST], 7, 100, Look(0, 3))]);
    tr := Extend(tr, DoProcess(2), s2);
    assert [FIRST][1..] == [];
    var s3 := s2.(threads := [Done, Done, Signal([], [], 7, 100, Look(0, 3))], retired := [Retired(FIRST, false, Some(Look(0, 3)))]);
    tr := Extend(tr, SignalOne(2), s3);
    tr := Extend(tr, SignalEnd(2), s3.(threads := [Done, Done, Register(7, 100)]));
    tr := Extend(tr, RegFail(2), s3.(threads := [Done, Done, Done], failed := true));
  }

  /** Being armed is not enough: here a callback is registered after the failure, yet the head is not
      served, and the run can go on, without a further failure, to forsake it. */
  lemma ArmedCanStrand() returns (tr: seq<State>, tr': seq<State>)
    ensures Run(tr) && AtRest(tr[|tr| - 1]) && !NothingArmed(tr[|tr| - 1]) && tr[|tr| - 1].ctx.pending == [NEXT]
    ensures !Served(tr[|tr| - 1], NEXT)
    ensures CalmPath(tr') && tr'[0] == tr[|tr| - 1]
    ensures AtRest(tr'[|tr'| - 1]) && Asleep(tr'[|tr'| - 1]) && Forsaken(tr'[|tr'| - 1], NEXT)
  {
    tr := NextFails();
    var s := tr[|tr| - 1];
    assert s.regs[0].status.Registered?;
    tr' := SlipsAway(s, NEXT);
    ServedIffWatched(tr);
    RunThenCalm(tr, tr');
    UnarmedForsakes(tr + tr'[1..]);
    AsleepIffUnarmed(tr + tr'[1..]);
  }
}
