/**
 NVKMS timers on the kthread work queue itself (nvidia-modeset-linux.c, nv-kthread-q.c): the two
 machines side by side, so that what `Timers` takes for granted about the queue is what `KthreadQ`
 does. `mismatch` records that the queue did something the timers do not expect: it refused an item,
 handed over the wrong one, or let stop return while a timer was still linked or running.
 */
module TimerQueue {
  import opened Base
  import Q = KthreadQ
  import T = Timers
  import W = WorkThread

  datatype State = State(t: T.State, q: Q.State, mismatch: bool)

  datatype Label =
    | TimerOnly(tl: T.Label)
    | QueueOnly(ql: Q.Label)
    | QueueWork(tl: T.Label)   // nvkms_queue_work, from a handler or for a timer without delay
    | TakeWork
    | StopReturns

  const Init: State := State(T.Init, Q.Init, false)

  predicate Queues(tl: T.Label) {
    tl.HandlerQueue? || ((tl.AllocTimer? || tl.AllocRefTimer?) && tl.immediate)
  }

  /** The timer whose item a step queues. */
  function Queued(t: T.State, tl: T.Label): nat {
    if tl.HandlerQueue? then tl.t else |t.timers|
  }

  predicate Enabled(s: State, l: Label) {
    match l
    case TimerOnly(tl) => T.Enabled(s.t, tl) && !Queues(tl) && !tl.Take? && !tl.StopQueue?
    case QueueOnly(ql) =>
      && Q.Enabled(s.q, ql)
      && match ql {
           case Schedule(_, _) => false
           case CallFlush => false
           case Take => s.q.list == [] || s.q.list[0].Marker?
           case Finish => s.t.worker.None?       // the callback, if any, has returned
           case CallStop => s.t.exit.Stopping?   // nvkms_exit stops the queue after its drain
           case StopJoin => false
           case _ => true
         }
    case QueueWork(tl) => Queues(tl) && T.Enabled(s.t, tl)
    case TakeWork => Q.Enabled(s.q, Q.Take) && s.q.list != [] && s.q.list[0].Work?
    case StopReturns => Q.Enabled(s.q, Q.StopJoin)
  }

  function Apply(s: State, l: Label): State
    requires Enabled(s, l)
  {
    match l
    case TimerOnly(tl) => s.(t := T.Apply(s.t, tl))
    case QueueOnly(ql) => s.(q := Q.Apply(s.q, ql))
    case QueueWork(tl) =>
      var item := Q.Work(Queued(s.t, tl));
      if Q.ShouldExit(s.q) || item in s.q.list then s.(mismatch := true)
      else s.(t := T.Apply(s.t, tl), q := Q.Apply(s.q, Q.Schedule(item, None)))
    case TakeWork =>
      if T.Enabled(s.t, T.Take) && s.t.queue[0] == s.q.list[0].id
      then s.(t := T.Apply(s.t, T.Take), q := Q.Apply(s.q, Q.Take))
      else s.(mismatch := true)
    case StopReturns =>
      if T.Enabled(s.t, T.StopQueue)
      then s.(t := T.Apply(s.t, T.StopQueue), q := Q.Apply(s.q, Q.StopJoin))
      else s.(mismatch := true)
  }

  ghost predicate Next(s: State, s': State) {
    exists l :: Enabled(s, l) && s' == Apply(s, l)
  }

  ghost predicate Run(tr: seq<State>) {
    |tr| > 0 && tr[0] == Init && forall i :: 0 < i < |tr| ==> Next(tr[i - 1], tr[i])
  }

  /** The timers whose items are in a list, in order. */
  function WorkIds(l: seq<Q.Item>): seq<nat> {
    if l == [] then [] else (if l[0].Work? then [l[0].id] else []) + WorkIds(l[1..])
  }

  lemma {:induction false} WorkIdsAppend(l: seq<Q.Item>, x: Q.Item)
    ensures WorkIds(l + [x]) == WorkIds(l) + if x.Work? then [x.id] else []
  {
    if l == [] {
      assert [x][1..] == [] && l + [x] == [x];
    } else {
      assert (l + [x])[1..] == l[1..] + [x];
      WorkIdsAppend(l[1..], x);
      Assoc(if l[0].Work? then [l[0].id] else [], WorkIds(l[1..]), if x.Work? then [x.id] else []);
    }
  }

  lemma {:induction false} WorkIdsMember(l: seq<Q.Item>, k: nat)
    ensures Q.Work(k) in l ==> k in WorkIds(l)
  {
    if l != [] {
      WorkIdsMember(l[1..], k);
      assert l == [l[0]] + l[1..];
    }
  }

  /** The two sides agree on what is linked, on what is running, and on stopping. */
  predicate Agree(s: State) {
    && !s.mismatch
    && WorkIds(s.q.list) == s.t.queue
    && (s.t.worker.Some? ==> s.q.worker.Running?)
    && (!s.q.stop.NotCalled? ==> s.t.exit.Stopping? || s.t.exit.Stopped?)
    && (s.t.exit.Stopped? <==> s.q.stop.Joined?)
    && W.OnlyMarkers(s.q)
  }

  ghost predicate Inv(s: State) {
    T.Inv(s.t) && Q.Inv(s.q) && Agree(s)
  }

  lemma TimerOnlyKeeps(t: T.State, tl: T.Label)
    requires T.Enabled(t, tl) && !Queues(tl) && !tl.Take? && !tl.StopQueue?
    ensures var t' := T.Apply(t, tl);
      && t'.queue == t.queue && (t'.worker.Some? ==> t.worker.Some?)
      && (t.exit.Stopping? || t.exit.Stopped? ==> t'.exit == t.exit) && (t'.exit.Stopped? ==> t.exit.Stopped?)
  {}

  lemma TimerOnlyInv(s: State, tl: T.Label)
    requires Inv(s) && Enabled(s, TimerOnly(tl))
    ensures Inv(Apply(s, TimerOnly(tl)))
  {
    T.ApplyInv(s.t, tl);
    TimerOnlyKeeps(s.t, tl);
  }

  lemma MarkersStep(s: State, ql: Q.Label)
    requires Inv(s) && Enabled(s, QueueOnly(ql))
    ensures W.OnlyMarkers(Q.Apply(s.q, ql))
  {
    if ql.FlushQueue? {
      Q.MarkerFresh(s.q, ql.f);
      W.FlushMarkersStep(s.q, ql.f);
    } else {
      W.OtherMarkersStep(s.q, ql);
    }
  }

  /** Markers are no timers' items. */
  lemma MarkersInvisible(q: Q.State, ql: Q.Label)
    requires Q.Enabled(q, ql) && !ql.Schedule? && (ql.Take? ==> q.list == [] || q.list[0].Marker?)
    ensures WorkIds(Q.Apply(q, ql).list) == WorkIds(q.list)
  {
    if ql.FlushQueue? {
      WorkIdsAppend(q.list, Q.Marker(ql.f, q.flushes[ql.f].pc.Queue2?));
    }
  }

  lemma QueueOnlyKeeps(q: Q.State, ql: Q.Label)
    requires Q.Enabled(q, ql) && !ql.StopJoin?
    ensures var q' := Q.Apply(q, ql);
      && (q.worker.Running? && !ql.Finish? ==> q'.worker.Running?)
      && (q'.stop.NotCalled? <==> q.stop.NotCalled? && !ql.CallStop?)
      && (q'.stop.Joined? <==> q.stop.Joined?)
  {}

  lemma QueueOnlyInv(s: State, ql: Q.Label)
    requires Inv(s) && Enabled(s, QueueOnly(ql))
    ensures Inv(Apply(s, QueueOnly(ql)))
  {
    Q.ApplyInv(s.q, ql);
    MarkersStep(s, ql);
    MarkersInvisible(s.q, ql);
    QueueOnlyKeeps(s.q, ql);
  }

  /** A timer that queues its item finds it unlinked and the queue alive. */
  lemma QueueingAllowed(s: State, tl: T.Label)
    requires Inv(s) && Enabled(s, QueueWork(tl))
    ensures s.q.stop.NotCalled? && Q.Work(Queued(s.t, tl)) !in s.q.list && Queued(s.t, tl) !in s.t.queue
  {
    if tl.HandlerQueue? {
      assert T.At(s.t, tl.t);
    }
    WorkIdsMember(s.q.list, Queued(s.t, tl));
  }

  lemma QueueingKeeps(t: T.State, tl: T.Label)
    requires T.Enabled(t, tl) && Queues(tl) && Queued(t, tl) !in t.queue
    ensures var t' := T.Apply(t, tl);
      t'.queue == t.queue + [Queued(t, tl)] && t'.worker == t.worker && t'.exit == t.exit
  {}

  lemma QueueWorkInv(s: State, tl: T.Label)
    requires Inv(s) && Enabled(s, QueueWork(tl))
    ensures Inv(Apply(s, QueueWork(tl)))
  {
    QueueingAllowed(s, tl);
    QueueingKeeps(s.t, tl);
    var item := Q.Work(Queued(s.t, tl));
    T.ApplyInv(s.t, tl);
    Q.ApplyInv(s.q, Q.Schedule(item, None));
    WorkIdsAppend(s.q.list, item);
  }

  /** The worker of the queue takes the item that the timers expect, when they expect one. */
  lemma TakeExpected(s: State)
    requires Inv(s) && Enabled(s, TakeWork)
    ensures T.Enabled(s.t, T.Take) && s.t.queue[0] == s.q.list[0].id
    ensures WorkIds(s.q.list[1..]) == s.t.queue[1..]
  {
    assert s.t.queue == [s.q.list[0].id] + WorkIds(s.q.list[1..]);
    assert s.t.queue[0] in s.t.queue;
  }

  lemma TakeWorkInv(s: State)
    requires Inv(s) && Enabled(s, TakeWork)
    ensures Inv(Apply(s, TakeWork))
  {
    TakeExpected(s);
    T.ApplyInv(s.t, T.Take);
    Q.ApplyInv(s.q, Q.Take);
  }

  /** Nothing is queued once stop has queued its markers, so stop returns with nothing linked and no
      callback running. */
  lemma StopExpected(s: State)
    requires Inv(s) && Enabled(s, StopReturns)
    ensures s.q.list == [] && T.Enabled(s.t, T.StopQueue)
  {
    assert Q.FlushOk(s.q, s.q.flushes[0]);
  }

  lemma StopReturnsInv(s: State)
    requires Inv(s) && Enabled(s, StopReturns)
    ensures Inv(Apply(s, StopReturns))
  {
    StopExpected(s);
    T.ApplyInv(s.t, T.StopQueue);
    Q.ApplyInv(s.q, Q.StopJoin);
  }

  lemma StepInv(s: State, s': State)
    requires Inv(s) && Next(s, s')
    ensures Inv(s')
  {
    var l :| Enabled(s, l) && s' == Apply(s, l);
    match l
    case TimerOnly(tl) => TimerOnlyInv(s, tl);
    case QueueOnly(ql) => QueueOnlyInv(s, ql);
    case QueueWork(tl) => QueueWorkInv(s, tl);
    case TakeWork => TakeWorkInv(s);
    case StopReturns => StopReturnsInv(s);
  }

  lemma InitInv()
    ensures Inv(Init)
  {}

  lemma {:induction false} RunInv(tr: seq<State>)
    requires Run(tr)
    ensures Inv(tr[|tr| - 1])
  {
    var n := |tr| - 1;
    if n == 0 {
      InitInv();
    } else {
      RunInv(tr[..n]);
      StepInv(tr[n - 1], tr[n]);
    }
  }

  /** Each step is a step of the timers and of the queue, or leaves one of them alone. */
  lemma RefinesBoth(s: State, s': State)
    requires Next(s, s')
    ensures s'.t == s.t || T.Next(s.t, s'.t)
    ensures s'.q == s.q || Q.Next(s.q, s'.q)
  {
    var l :| Enabled(s, l) && s' == Apply(s, l);
    if l.TimerOnly? || l.QueueWork? {
      assert T.Enabled(s.t, l.tl);
    } else if l.QueueOnly? {
      assert Q.Enabled(s.q, l.ql);
    }
  }

  /** What `Timers` assumes of the queue holds of the queue itself: items are accepted whenever a
      timer queues one, taken one at a time in the order of the timers' view, and stop returns only
      when nothing is linked and no callback is running. */
  lemma QueueAsExpected(tr: seq<State>)
    requires Run(tr)
    ensures var s := tr[|tr| - 1];
      && !s.mismatch && WorkIds(s.q.list) == s.t.queue
      && (s.t.worker.Some? ==> s.q.worker.Running?)
      && (Enabled(s, StopReturns) ==> s.t.queue == [] && s.t.worker.None?)
  {
    RunInv(tr);
    var s := tr[|tr| - 1];
    if Enabled(s, StopReturns) {
      StopExpected(s);
    }
  }

  /** Whatever one side does for the other, both sides do: an item queued for a timer is linked on both,
      an item taken starts its timer's callback, and stop returns for both. */
  lemma SidesMoveTogether(tr: seq<State>, l: Label)
    requires Run(tr) && Enabled(tr[|tr| - 1], l)
    ensures var s := tr[|tr| - 1]; var s' := Apply(s, l);
      && (l.QueueWork? ==>
            s'.t == T.Apply(s.t, l.tl) && s'.q.list == s.q.list + [Q.Work(Queued(s.t, l.tl))])
      && (l.TakeWork? ==> T.Enabled(s.t, T.Take) && s'.t == T.Apply(s.t, T.Take) && s'.q == Q.Apply(s.q, Q.Take))
      && (l.StopReturns? ==> s'.t.exit.Stopped? && s'.q.stop.Joined?)
  {
    RunInv(tr);
    var s := tr[|tr| - 1];
    if l.QueueWork? {
      QueueingAllowed(s, l.tl);
    } else if l.TakeWork? {
      TakeExpected(s);
    } else if l.StopReturns? {
      StopExpected(s);
    }
  }

  /** The queue's side can go on: a worker whose callback has returned finishes, a linked item is
      raised, waited for and taken, and after the drain stop can be called and goes on. */
  lemma QueueGoesOn(tr: seq<State>)
    requires Run(tr)
    ensures var s := tr[|tr| - 1];
      && (s.q.worker.Running? && s.t.worker.None? ==> Enabled(s, QueueOnly(Q.Finish)))
      && (s.q.owed > 0 ==> Enabled(s, QueueOnly(Q.Raise)))
      && (s.q.worker.Waiting? && s.q.sem > 0 ==> Enabled(s, QueueOnly(Q.Down)))
      && (s.q.worker.Checking? ==> Enabled(s, QueueOnly(Q.Check)))
      && (s.q.worker.Locking? ==> Enabled(s, TakeWork) || Enabled(s, QueueOnly(Q.Take)))
      && (s.t.exit.Stopping? && s.q.stop.NotCalled? ==> Enabled(s, QueueOnly(Q.CallStop)))
      && (s.q.stop.Flushing? && |s.q.flushes| > 0 && s.q.flushes[0].pc.Returned? ==> Enabled(s, QueueOnly(Q.StopFlag)))
      && (s.q.stop.Flagged? ==> Enabled(s, QueueOnly(Q.StopRaise)))
      && (s.q.stop.Raised? && s.q.worker.Exited? ==> Enabled(s, StopReturns))
  {
    RunInv(tr);
  }

  /** When nvkms_exit's queue stop has returned, every timer has been released exactly once, the
      global list and the queue are empty, and every item ever queued has run to its end. */
  lemma ExitLeavesNothing(tr: seq<State>)
    requires Run(tr) && tr[|tr| - 1].q.stop.Joined?
    ensures var s := tr[|tr| - 1];
      && s.t.list == [] && s.q.list == [] && s.q.started == s.q.finished == |s.q.history|
      && forall t :: 0 <= t < |s.t.timers| ==> s.t.timers[t].released == 1
  {
    RunInv(tr);
    var s := tr[|tr| - 1];
    T.StoppedReleasedAll(s.t);
    assert Q.FlushOk(s.q, s.q.flushes[0]);
  }
}
