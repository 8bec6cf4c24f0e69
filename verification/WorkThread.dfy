/**
 The worker of nvidia-drm-os-interface.c: a queue of its own, plus a `shutting_down` flag that
 `nv_drm_workthread_add_work` and `nv_drm_workthread_shutdown` exchange under `worker->lock`.

 A run interleaves any number of add_work calls, made by outside threads or by running items,
 with the worker and one shutdown. Every step is a step of the queue or leaves the queue alone,
 so the queue's invariant carries over.
 */
module WorkThread {
  import opened Base
  import Q = KthreadQ

  /** The add_work call that holds `worker->lock`; a call made by a running item has its index. */
  datatype Holder =
    | Free
    | Entered(work: nat, parent: Option<nat>)
    | Checked(work: nat, parent: Option<nat>)
    | Leaving(work: nat, parent: Option<nat>, ret: bool)

  /** A call that returned 0, with what it found when that was decided: the flag set, its own item
      linked. */
  datatype Refusal = Refusal(work: nat, down: bool, linked: bool)

  datatype State = State(
    q: Q.State,
    holder: Holder,
    shuttingDown: bool,
    calls: seq<nat>,      // work of every add_work call that has got the lock
    accepted: seq<nat>,   // work of the calls that returned nonzero, in order
    refused: seq<Refusal>,
    lateAttempt: bool     // a schedule attempt has found the queue's exit flag set
  )

  datatype Label =
    | AddEnter(work: nat, parent: Option<nat>)
    | AddCheck
    | AddSchedule
    | AddLeave
    | Shutdown
    | Queue(l: Q.Label)

  const Init: State := State(Q.Init, Free, false, [], [], [], false)

  predicate HeldByWorker(h: Holder) { !h.Free? && h.parent.Some? }

  predicate Enabled(s: State, l: Label) {
    match l
    case AddEnter(_, parent) =>
      s.holder.Free? && (parent.Some? ==> s.q.worker.Running? && parent.value == s.q.finished)
    case AddCheck => s.holder.Entered?
    case AddSchedule =>
      s.holder.Checked? && Q.Enabled(s.q, Q.Schedule(Q.Work(s.holder.work), s.holder.parent))
    case AddLeave => s.holder.Leaving?
    case Shutdown => s.holder.Free? && !s.shuttingDown
    case Queue(ql) =>
      && Q.Enabled(s.q, ql)
      && match ql {
           case Schedule(_, _) => false   // the queue is reached through add_work alone
           case CallFlush => false        // and flushed by stop alone
           case CallStop => s.shuttingDown
           case Finish => !HeldByWorker(s.holder)
           case _ => true
         }
  }

  function Refused(s: State, work: nat): Refusal {
    Refusal(work, s.shuttingDown, Q.Work(work) in s.q.list)
  }

  function Apply(s: State, l: Label): State
    requires Enabled(s, l)
  {
    match l
    case AddEnter(work, parent) =>
      var s' := s.(calls := s.calls + [work]);
      if s.shuttingDown then s'.(refused := s.refused + [Refused(s, work)])
      else s'.(holder := Entered(work, parent))
    case AddCheck =>
      if Q.ShouldExit(s.q)
      then s.(holder := Leaving(s.holder.work, s.holder.parent, false), lateAttempt := true,
              refused := s.refused + [Refused(s, s.holder.work)])
      else s.(holder := Checked(s.holder.work, s.holder.parent))
    case AddSchedule =>
      var w := Q.Work(s.holder.work);
      s.(q := Q.Apply(s.q, Q.Schedule(w, s.holder.parent)),
         holder := Leaving(s.holder.work, s.holder.parent, w !in s.q.list),
         refused := if w in s.q.list then s.refused + [Refused(s, s.holder.work)] else s.refused)
    case AddLeave =>
      s.(holder := Free, accepted := if s.holder.ret then s.accepted + [s.holder.work] else s.accepted)
    case Shutdown => s.(shuttingDown := true)
    case Queue(ql) => s.(q := Q.Apply(s.q, ql))
  }

  ghost predicate Next(s: State, s': State) {
    exists l :: Enabled(s, l) && s' == Apply(s, l)
  }

  ghost predicate Run(tr: seq<State>) {
    |tr| > 0 && tr[0] == Init && forall i :: 0 < i < |tr| ==> Next(tr[i - 1], tr[i])
  }

  /** The work items of a schedule history, in order. */
  function Works(h: seq<Q.Entry>): seq<nat> {
    if h == [] then []
    else
      var n := |h| - 1;
      Works(h[..n]) + if h[n].item.Work? then [h[n].item.id] else []
  }

  lemma WorksAppend(h: seq<Q.Entry>, e: Q.Entry)
    ensures Works(h + [e]) == Works(h) + if e.item.Work? then [e.item.id] else []
  {
    assert (h + [e])[..|h|] == h;
  }

  /** What add_work has queued but not yet reported. */
  function InFlight(h: Holder): seq<nat> {
    if h.Leaving? && h.ret then [h.work] else []
  }

  /** Once stop has queued its second marker, nothing follows that marker. */
  predicate OnlyMarkers(q: Q.State) {
    match q.stop
    case NotCalled => q.flushes == []
    case Flushing(f) =>
      && f == 0
      && |q.flushes| == 1
      && (Q.HasAt2(q.flushes[0].pc) ==> |q.history| == q.flushes[0].pc.at2 + 1)
    case _ =>
      && q.stop.f == 0
      && |q.flushes| == 1
      && q.flushes[0].pc.Returned?
      && |q.history| == q.flushes[0].pc.at2 + 1
  }

  /** The lock separates every add_work call from the shutdown, and the shutdown from stop. */
  predicate LockOrder(s: State) {
    && (s.shuttingDown ==> s.holder.Free?)
    && (!s.q.stop.NotCalled? ==> s.shuttingDown)
    && (HeldByWorker(s.holder) ==> s.q.worker.Running? && s.holder.parent.value == s.q.finished)
    && !s.lateAttempt
  }

  predicate Reported(s: State) {
    Works(s.q.history) == s.accepted + InFlight(s.holder)
  }

  /** A call is refused only by a worker that is shutting down, or because its item is linked. */
  predicate RefusedRightly(s: State) {
    forall i :: 0 <= i < |s.refused| ==> s.refused[i].down || s.refused[i].linked
  }

  ghost predicate Inv(s: State) {
    && Q.Inv(s.q)
    && LockOrder(s)
    && Reported(s)
    && RefusedRightly(s)
    && OnlyMarkers(s.q)
  }

  /** Each step is a step of the queue, or leaves the queue alone. */
  lemma RefinesQueue(s: State, s': State)
    requires Next(s, s')
    ensures s'.q == s.q || Q.Next(s.q, s'.q)
  {
    var l :| Enabled(s, l) && s' == Apply(s, l);
    if l.Queue? {
      assert Q.Enabled(s.q, l.l);
    }
  }

  lemma ScheduleReported(s: State)
    requires Reported(s) && Enabled(s, AddSchedule)
    ensures Reported(Apply(s, AddSchedule))
  {
    WorksAppend(s.q.history, Q.Entry(Q.Work(s.holder.work), s.holder.parent));
  }

  lemma QueueReported(s: State, ql: Q.Label)
    requires Reported(s) && Enabled(s, Queue(ql))
    ensures Reported(Apply(s, Queue(ql)))
  {
    if ql.FlushQueue? {
      WorksAppend(s.q.history, Q.Entry(Q.Marker(ql.f, s.q.flushes[ql.f].pc.Queue2?), None));
    } else {
      assert Q.Apply(s.q, ql).history == s.q.history;
    }
  }

  lemma ReportedStep(s: State, l: Label)
    requires Reported(s) && Enabled(s, l)
    ensures Reported(Apply(s, l))
  {
    match l
    case AddSchedule => ScheduleReported(s);
    case Queue(ql) => QueueReported(s, ql);
    case _ =>
  }

  lemma LockOrderStep(s: State, l: Label)
    requires Inv(s) && Enabled(s, l)
    ensures LockOrder(Apply(s, l))
  {}

  lemma RefusedStep(s: State, l: Label)
    requires Inv(s) && Enabled(s, l)
    ensures RefusedRightly(Apply(s, l))
  {}

  lemma FlushMarkersStep(q: Q.State, f: nat)
    requires OnlyMarkers(q) && Q.Enabled(q, Q.FlushQueue(f))
    requires Q.Marker(f, q.flushes[f].pc.Queue2?) !in q.list
    ensures OnlyMarkers(Q.Apply(q, Q.FlushQueue(f)))
  {}

  lemma OtherMarkersStep(q: Q.State, ql: Q.Label)
    requires OnlyMarkers(q) && Q.Enabled(q, ql) && !ql.Schedule? && !ql.CallFlush? && !ql.FlushQueue?
    ensures OnlyMarkers(Q.Apply(q, ql))
  {}

  lemma QueueMarkersStep(s: State, ql: Q.Label)
    requires Inv(s) && Enabled(s, Queue(ql))
    ensures OnlyMarkers(Q.Apply(s.q, ql))
  {
    if ql.FlushQueue? {
      Q.MarkerFresh(s.q, ql.f);
      FlushMarkersStep(s.q, ql.f);
    } else {
      OtherMarkersStep(s.q, ql);
    }
  }

  lemma MarkersStep(s: State, l: Label)
    requires Inv(s) && Enabled(s, l)
    ensures OnlyMarkers(Apply(s, l).q)
  {
    if l.Queue? {
      QueueMarkersStep(s, l.l);
    }
  }

  lemma StepInv(s: State, s': State)
    requires Inv(s) && Next(s, s')
    ensures Inv(s')
  {
    RefinesQueue(s, s');
    if s'.q != s.q { Q.StepInv(s.q, s'.q); }
    var l :| Enabled(s, l) && s' == Apply(s, l);
    LockOrderStep(s, l);
    RefusedStep(s, l);
    ReportedStep(s, l);
    MarkersStep(s, l);
  }

  lemma InitInv()
    ensures Inv(Init)
  {}

  lemma {:induction false} RunInv(tr: seq<State>)
    requires Run(tr)
    ensures Inv(tr[|tr| - 1])
  {
    var n := |tr| - 1;
    if n == 0 {
      InitInv();
    } else {
      RunInv(tr[..n]);
      StepInv(tr[n - 1], tr[n]);
    }
  }

  // Every call gets one answer

  function WorksOf(rs: seq<Refusal>): (ws: seq<nat>)
    ensures |ws| == |rs| && forall i :: 0 <= i < |rs| ==> ws[i] == rs[i].work
  {
    seq(|rs|, i requires 0 <= i < |rs| => rs[i].work)
  }

  /** The call under way whose answer is still open. */
  function Unanswered(h: Holder): seq<nat> {
    if h.Free? || (h.Leaving? && !h.ret) then [] else [h.work]
  }

  /** Every call made for `x` has been accepted, has been refused or is under way. */
  predicate Answered(s: State, x: nat) {
    Count(s.calls, x)
      == Count(s.accepted, x) + Count(WorksOf(s.refused), x) + Count(Unanswered(s.holder), x)
  }

  lemma RefusalCount(rs: seq<Refusal>, r: Refusal, x: nat)
    ensures Count(WorksOf(rs + [r]), x) == Count(WorksOf(rs), x) + if r.work == x then 1 else 0
  {
    assert WorksOf(rs + [r]) == WorksOf(rs) + [r.work];
    CountAppend(WorksOf(rs), r.work, x);
  }

  lemma EnterAnswered(s: State, l: Label, x: nat)
    requires l.AddEnter? && Enabled(s, l) && Answered(s, x)
    ensures Answered(Apply(s, l), x)
  {
    CountAppend(s.calls, l.work, x);
    CountOne(l.work, x);
    RefusalCount(s.refused, Refused(s, l.work), x);
  }

  lemma CheckAnswered(s: State, x: nat)
    requires Enabled(s, AddCheck) && Answered(s, x)
    ensures Answered(Apply(s, AddCheck), x)
  {
    var s' := Apply(s, AddCheck);
    if s'.holder.Checked? {
      assert Unanswered(s'.holder) == Unanswered(s.holder) && s'.refused == s.refused;
    } else {
      CountOne(s.holder.work, x);
      RefusalCount(s.refused, Refused(s, s.holder.work), x);
    }
  }

  lemma ScheduleAnswered(s: State, x: nat)
    requires Enabled(s, AddSchedule) && Answered(s, x)
    ensures Answered(Apply(s, AddSchedule), x)
  {
    CountOne(s.holder.work, x);
    RefusalCount(s.refused, Refused(s, s.holder.work), x);
  }

  lemma QuietAnswered(s: State, l: Label, x: nat)
    requires (l.Shutdown? || l.Queue?) && Enabled(s, l) && Answered(s, x)
    ensures Answered(Apply(s, l), x)
  {}

  lemma LeaveAnswered(s: State, x: nat)
    requires Enabled(s, AddLeave) && Answered(s, x)
    ensures Answered(Apply(s, AddLeave), x)
  {
    CountOne(s.holder.work, x);
    CountAppend(s.accepted, s.holder.work, x);
  }

  lemma AnsweredStep(s: State, l: Label, x: nat)
    requires Enabled(s, l) && Answered(s, x)
    ensures Answered(Apply(s, l), x)
  {
    if l.AddEnter? {
      EnterAnswered(s, l, x);
    } else if l.AddLeave? {
      LeaveAnswered(s, x);
    } else if l.AddCheck? {
      CheckAnswered(s, x);
    } else if l.AddSchedule? {
      ScheduleAnswered(s, x);
    } else {
      QuietAnswered(s, l, x);
    }
  }

  lemma {:induction false} AnsweredRun(tr: seq<State>, x: nat)
    requires Run(tr)
    ensures Answered(tr[|tr| - 1], x)
  {
    var n := |tr| - 1;
    if n > 0 {
      AnsweredRun(tr[..n], x);
      assert Next(tr[n - 1], tr[n]);
      var l :| Enabled(tr[n - 1], l) && tr[n] == Apply(tr[n - 1], l);
      AnsweredStep(tr[n - 1], l, x);
    }
  }

  /** Over every run each call of add_work is accepted, refused or under way, and a refused one found
      the worker shutting down or its own item still linked. So on a live worker a call for an item
      that is not linked is accepted. */
  lemma RefusedOnlyRightly(tr: seq<State>, x: nat)
    requires Run(tr)
    ensures var s := tr[|tr| - 1];
      && Answered(s, x)
      && (forall i :: 0 <= i < |s.refused| ==> s.refused[i].down || s.refused[i].linked)
      && (!s.shuttingDown ==> forall i :: 0 <= i < |s.refused| ==> !s.refused[i].down)
  {
    RunInv(tr);
    AnsweredRun(tr, x);
    NotDownRun(tr);
  }

  lemma {:induction false} NotDownRun(tr: seq<State>)
    requires Run(tr)
    ensures var s := tr[|tr| - 1];
      !s.shuttingDown ==> forall i :: 0 <= i < |s.refused| ==> !s.refused[i].down
  {
    var n := |tr| - 1;
    if n > 0 {
      NotDownRun(tr[..n]);
      assert Next(tr[n - 1], tr[n]);
    }
  }

  /** A call can always get the lock when it is free, and whoever holds it can go on. */
  lemma CallsGoOn(tr: seq<State>, work: nat)
    requires Run(tr)
    ensures var s := tr[|tr| - 1];
      match s.holder
      case Free => Enabled(s, AddEnter(work, None)) && (Enabled(s, Shutdown) <==> !s.shuttingDown)
                   && (s.shuttingDown && s.q.stop.NotCalled? ==> Enabled(s, Queue(Q.CallStop)))
      case Entered(_, _) => Enabled(s, AddCheck)
      case Checked(_, _) => Enabled(s, AddSchedule)
      case Leaving(_, _, _) => Enabled(s, AddLeave)
  {
    RunInv(tr);
  }

  lemma {:induction false} AcceptedStays(tr: seq<State>, i: nat)
    requires Run(tr) && i < |tr| && tr[i].shuttingDown
    ensures tr[|tr| - 1].shuttingDown && tr[|tr| - 1].accepted == tr[i].accepted
  {
    var n := |tr| - 1;
    if i < n {
      AcceptedStays(tr[..n], i);
      RunInv(tr[..n]);
      AcceptedNext(tr[n - 1], tr[n]);
    }
  }

  lemma AcceptedNext(s: State, s': State)
    requires LockOrder(s) && s.shuttingDown && Next(s, s')
    ensures s'.shuttingDown && s'.accepted == s.accepted
  {}

  /** From the shutdown on, nothing is accepted. */
  lemma NoneAfterShutdown(tr: seq<State>, i: nat)
    requires Run(tr) && i + 1 < |tr| && Enabled(tr[i], Shutdown) && tr[i + 1] == Apply(tr[i], Shutdown)
    ensures tr[|tr| - 1].accepted == tr[i].accepted
  {
    AcceptedStays(tr, i + 1);
  }

  lemma Extend(tr: seq<State>, l: Label) returns (tr': seq<State>)
    requires Run(tr) && Enabled(tr[|tr| - 1], l)
    ensures Run(tr') && tr'[|tr'| - 1] == Apply(tr[|tr| - 1], l)
  {
    tr' := tr + [Apply(tr[|tr| - 1], l)];
  }

  lemma CallAccepted() returns (tr: seq<State>)
    ensures Run(tr)
    ensures tr[|tr| - 1] ==
      Init.(q := Q.Init.(list := [Q.Work(0)], owed := 1, history := [Q.Entry(Q.Work(0), None)]),
            calls := [0], accepted := [0])
  {
    tr := Extend([Init], AddEnter(0, None));
    tr := Extend(tr, AddCheck);
    tr := Extend(tr, AddSchedule);
    tr := Extend(tr, AddLeave);
  }

  /** A run with both kinds of refusal: of an item still linked, and after the shutdown. */
  lemma CallsRefused() returns (tr: seq<State>)
    ensures Run(tr)
    ensures var s := tr[|tr| - 1];
      && s.calls == [0, 0, 1] && s.accepted == [0] && s.holder.Free? && s.shuttingDown
      && s.refused == [Refusal(0, false, true), Refusal(1, true, false)]
  {
    tr := CallAccepted();
    tr := Extend(tr, AddEnter(0, None));
    tr := Extend(tr, AddCheck);
    tr := Extend(tr, AddSchedule);
    tr := Extend(tr, AddLeave);
    tr := Extend(tr, Shutdown);
    tr := Extend(tr, AddEnter(1, None));
  }

  /** No add_work call ever reaches a stopped queue, and what add_work accepted is, in order, what
      was queued: the started items, then the list. */
  lemma AcceptedInOrder(tr: seq<State>)
    requires Run(tr)
    ensures var s := tr[|tr| - 1];
      && !s.lateAttempt
      && Reported(s)
      && s.q.started <= |s.q.history|
      && Q.Items(s.q.history) == Q.Items(s.q.history[..s.q.started]) + s.q.list
  {
    RunInv(tr);
    Q.FifoSplit(tr[|tr| - 1].q);
  }

  /** When stop has flushed and is about to set the exit flag, the list is empty: its warning about
      items left after flushing is unreachable. */
  lemma FlushedIsEmpty(tr: seq<State>)
    requires Run(tr) && Q.Enabled(tr[|tr| - 1].q, Q.StopFlag)
    ensures tr[|tr| - 1].q.list == []
  {
    RunInv(tr);
    var q := tr[|tr| - 1].q;
    assert Q.FlushOk(q, q.flushes[0]);
  }

  /** Once shutdown has returned, every accepted work item has run to its end, once per
      acceptance; nothing is linked, and nothing can be accepted any more. */
  lemma ShutdownDrains(tr: seq<State>)
    requires Run(tr) && tr[|tr| - 1].q.stop.Joined?
    ensures var s := tr[|tr| - 1];
      && s.q.list == []
      && s.q.started == s.q.finished == |s.q.history|
      && s.accepted == Works(s.q.history)
      && s.holder.Free?
      && s.shuttingDown
  {
    RunInv(tr);
    var s := tr[|tr| - 1];
    assert Q.FlushOk(s.q, s.q.flushes[0]);
  }
}
