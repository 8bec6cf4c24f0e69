/**
 The work queue of nv-kthread-q.c: a FIFO list under `q_lock`, a counting semaphore raised
 outside that lock, one worker thread, flush by marker item, and stop.

 Every interleaving is a run of the machine below. Each label is one atomic action: a region
 under `q_lock`, one semaphore operation, or one access to `main_loop_should_exit`.
 */
module KthreadQ {
  import opened Base

  /** A caller's item, or the on-stack item of one of the two rounds of flush call `flush`. */
  datatype Item = Work(id: nat) | Marker(flush: nat, second: bool)

  /** A successful schedule. `parent` is the history index of the item whose function made it. */
  datatype Entry = Entry(item: Item, parent: Option<nat>)

  /** Where the worker is in `_main_loop`. `Checking` and `Locking` hold a semaphore token. */
  datatype Worker = Waiting | Checking | Locking | Running | Exited

  /** Where a call of nv_kthread_q_flush is; `at1` and `at2` locate its markers in the history. */
  datatype FlushPc =
    | Queue1
    | Wait1(at1: nat)
    | Queue2(at1: nat)
    | Wait2(at1: nat, at2: nat)
    | Returned(at1: nat, at2: nat)

  /** A flush call, and how many items had been scheduled when it was made. */
  datatype Flush = Flush(calledAt: nat, pc: FlushPc)

  /** Where nv_kthread_q_stop is. The exit flag is set from `Flagged` on. */
  datatype StopPc = NotCalled | Flushing(f: nat) | Flagged(f: nat) | Raised(f: nat) | Joined(f: nat)

  datatype State = State(
    list: seq<Item>,       // q_list_head
    sem: nat,              // q_sem
    owed: nat,             // items linked whose up() is still to come
    worker: Worker,
    stop: StopPc,
    flushes: seq<Flush>,
    history: seq<Entry>,   // every successful schedule so far
    started: nat,          // how many items the worker has taken
    finished: nat,         // how many item functions have returned
    emptyWarned: bool      // the "Empty queue" warning has been reached
  )

  datatype Label =
    | Schedule(item: Item, parent: Option<nat>)
    | Raise
    | Down
    | Check
    | Take
    | Finish
    | CallFlush
    | FlushQueue(f: nat)
    | FlushWake(f: nat)
    | CallStop
    | StopFlag
    | StopRaise
    | StopJoin

  const Init: State := State([], 0, 0, Waiting, NotCalled, [], [], 0, 0, false)

  predicate ShouldExit(s: State) { s.stop.Flagged? || s.stop.Raised? || s.stop.Joined? }

  /** The locked region of _raw_q_schedule: an item that is already linked is left alone. */
  function RawSchedule(s: State, item: Item, parent: Option<nat>): State {
    if item in s.list then s
    else s.(list := s.list + [item], owed := s.owed + 1, history := s.history + [Entry(item, parent)])
  }

  predicate Enabled(s: State, l: Label) {
    match l
    case Schedule(item, parent) => item.Work? && (parent.Some? ==> s.worker.Running? && parent.value == s.finished)
    case Raise => s.owed > 0
    case Down => s.worker.Waiting? && s.sem > 0
    case Check => s.worker.Checking?
    case Take => s.worker.Locking?
    case Finish => s.worker.Running?
    case CallFlush => !ShouldExit(s)
    case FlushQueue(f) => f < |s.flushes| && (s.flushes[f].pc.Queue1? || s.flushes[f].pc.Queue2?)
    case FlushWake(f) =>
      f < |s.flushes| &&
      match s.flushes[f].pc {
        case Wait1(at1) => at1 < s.started
        case Wait2(_, at2) => at2 < s.started
        case _ => false
      }
    case CallStop => s.stop.NotCalled?
    case StopFlag => s.stop.Flushing? && s.stop.f < |s.flushes| && s.flushes[s.stop.f].pc.Returned?
    case StopRaise => s.stop.Flagged?
    case StopJoin => s.stop.Raised? && s.worker.Exited?
  }

  function SetFlush(s: State, f: nat, pc: FlushPc): State
    requires f < |s.flushes|
  {
    s.(flushes := s.flushes[f := s.flushes[f].(pc := pc)])
  }

  function Apply(s: State, l: Label): State
    requires Enabled(s, l)
  {
    match l
    case Schedule(item, parent) => RawSchedule(s, item, parent)
    case Raise => s.(owed := s.owed - 1, sem := s.sem + 1)
    case Down => s.(sem := s.sem - 1, worker := Checking)
    case Check => s.(worker := if ShouldExit(s) then Exited else Locking)
    case Take =>
      if s.list == [] then s.(worker := Waiting, emptyWarned := true)
      else s.(worker := Running, list := s.list[1..], started := s.started + 1)
    case Finish => s.(worker := Waiting, finished := s.finished + 1)
    case CallFlush => s.(flushes := s.flushes + [Flush(|s.history|, Queue1)])
    case FlushQueue(f) =>
      var pc := s.flushes[f].pc;
      var s' := RawSchedule(s, Marker(f, pc.Queue2?), None);
      SetFlush(s', f, if pc.Queue1? then Wait1(|s.history|) else Wait2(pc.at1, |s.history|))
    case FlushWake(f) =>
      var pc := s.flushes[f].pc;
      SetFlush(s, f, if pc.Wait1? then Queue2(pc.at1) else Returned(pc.at1, pc.at2))
    case CallStop => s.(stop := Flushing(|s.flushes|), flushes := s.flushes + [Flush(|s.history|, Queue1)])
    case StopFlag => s.(stop := Flagged(s.stop.f))
    case StopRaise => s.(stop := Raised(s.stop.f), sem := s.sem + 1)
    case StopJoin => s.(stop := Joined(s.stop.f))
  }

  ghost predicate Next(s: State, s': State) {
    exists l :: Enabled(s, l) && s' == Apply(s, l)
  }

  /** A finite run from the freshly initialised queue. */
  ghost predicate Run(tr: seq<State>) {
    |tr| > 0 && tr[0] == Init && forall i :: 0 < i < |tr| ==> Next(tr[i - 1], tr[i])
  }

  // Invariant

  function Held(w: Worker): nat {
    if w.Checking? || w.Locking? || w.Exited? then 1 else 0
  }

  function StopTokens(s: State): nat {
    if s.stop.Raised? || s.stop.Joined? then 1 else 0
  }

  /** Semaphore tokens, raises still owed and the worker's own token account for every linked item. */
  predicate Tokens(s: State) {
    s.sem + s.owed + Held(s.worker) == |s.list| + StopTokens(s)
  }

  function Items(h: seq<Entry>): (r: seq<Item>)
    ensures |r| == |h|
    ensures forall i :: 0 <= i < |h| ==> r[i] == h[i].item
  {
    seq(|h|, i requires 0 <= i < |h| => h[i].item)
  }

  /** The history of schedules is the started items followed by the list. */
  predicate Fifo(s: State) {
    s.started <= |s.history| && s.list == Items(s.history[s.started..])
  }

  predicate Counters(s: State) {
    && s.started == s.finished + (if s.worker.Running? then 1 else 0)
    && (s.worker.Locking? ==> s.list != [])
    && (s.worker.Exited? ==> ShouldExit(s))
    && (s.stop.Joined? ==> s.worker.Exited?)
    && !s.emptyWarned
  }

  predicate HasAt2(pc: FlushPc) { pc.Wait2? || pc.Returned? }

  /** A marker in the history belongs to a flush that has passed that round. */
  predicate MarkersOwned(s: State) {
    forall j :: 0 <= j < |s.history| && s.history[j].item.Marker? ==>
      var m := s.history[j].item;
      m.flush < |s.flushes| &&
      (if m.second then HasAt2(s.flushes[m.flush].pc) else !s.flushes[m.flush].pc.Queue1?)
  }

  /** An item that scheduled another had been started. */
  predicate ParentsStarted(s: State) {
    forall j :: 0 <= j < |s.history| && s.history[j].parent.Some? ==> s.history[j].parent.value < s.started
  }

  /** From history position `at2` on, nothing was scheduled by an item before `at1`. */
  predicate NoEarlyParents(h: seq<Entry>, at1: nat, at2: nat) {
    forall j :: at2 <= j < |h| && h[j].parent.Some? ==> at1 <= h[j].parent.value
  }

  predicate FlushOk(s: State, fl: Flush) {
    match fl.pc
    case Queue1 => fl.calledAt <= |s.history|
    case Wait1(at1) => fl.calledAt <= at1 < |s.history|
    case Queue2(at1) => fl.calledAt <= at1 < |s.history| && at1 <= s.finished
    case Wait2(at1, at2) =>
      fl.calledAt <= at1 < at2 < |s.history| && at1 <= s.finished && NoEarlyParents(s.history, at1, at2)
    case Returned(at1, at2) =>
      fl.calledAt <= at1 < at2 < s.started && at2 <= s.finished && NoEarlyParents(s.history, at1, at2)
  }

  predicate FlushesOk(s: State) {
    && (forall f :: 0 <= f < |s.flushes| ==> FlushOk(s, s.flushes[f]))
    && (!s.stop.NotCalled? ==> s.stop.f < |s.flushes|)
    && (ShouldExit(s) ==> s.flushes[s.stop.f].pc.Returned?)
  }

  ghost predicate Inv(s: State) {
    && Tokens(s)
    && Fifo(s)
    && NoDuplicates(s.list)
    && Counters(s)
    && MarkersOwned(s)
    && ParentsStarted(s)
    && FlushesOk(s)
  }

  lemma TokensStep(s: State, l: Label)
    requires Inv(s) && Enabled(s, l)
    ensures Tokens(Apply(s, l)) && Counters(Apply(s, l))
  {
    if l.FlushQueue? { MarkerFresh(s, l.f); }
  }

  /** The on-stack marker of a flush is never linked before the flush links it. */
  lemma MarkerFresh(s: State, f: nat)
    requires Inv(s) && Enabled(s, FlushQueue(f))
    ensures Marker(f, s.flushes[f].pc.Queue2?) !in s.list
  {}

  lemma RawScheduleFifo(s: State, item: Item, parent: Option<nat>)
    requires Fifo(s) && NoDuplicates(s.list)
    ensures Fifo(RawSchedule(s, item, parent)) && NoDuplicates(RawSchedule(s, item, parent).list)
  {
    var h := s.history + [Entry(item, parent)];
    assert h[s.started..] == s.history[s.started..] + [Entry(item, parent)];
  }

  lemma FifoStep(s: State, l: Label)
    requires Inv(s) && Enabled(s, l)
    ensures Fifo(Apply(s, l)) && NoDuplicates(Apply(s, l).list)
  {
    match l
    case Schedule(item, parent) => RawScheduleFifo(s, item, parent);
    case FlushQueue(f) => RawScheduleFifo(s, Marker(f, s.flushes[f].pc.Queue2?), None);
    case Take => assert s.history[s.started..][1..] == s.history[s.started + 1..];
    case _ =>
  }

  lemma MarkersStep(s: State, l: Label)
    requires Inv(s) && Enabled(s, l)
    ensures MarkersOwned(Apply(s, l)) && ParentsStarted(Apply(s, l))
  {}

  /** A step only appends to the history, and what it appends was not scheduled by a finished item. */
  lemma HistoryGrows(s: State, l: Label)
    requires Inv(s) && Enabled(s, l)
    ensures var s' := Apply(s, l);
      && s.finished <= s'.finished
      && s.started <= s'.started
      && s.history <= s'.history
      && NoEarlyParents(s'.history, s.finished, |s.history|)
  {}

  lemma FlushOkGrows(s: State, s': State, fl: Flush)
    requires FlushOk(s, fl)
    requires s.history <= s'.history && s.started <= s'.started && s.finished <= s'.finished
    requires NoEarlyParents(s'.history, s.finished, |s.history|)
    ensures FlushOk(s', fl)
  {}

  lemma FlushOkStep(s: State, l: Label, f: nat)
    requires Inv(s) && Enabled(s, l) && f < |s.flushes|
    ensures FlushOk(Apply(s, l), Apply(s, l).flushes[f])
  {
    HistoryGrows(s, l);
    FlushOkGrows(s, Apply(s, l), s.flushes[f]);
    if l == FlushQueue(f) { MarkerFresh(s, f); }
  }

  lemma FlushStep(s: State, l: Label)
    requires Inv(s) && Enabled(s, l)
    ensures FlushesOk(Apply(s, l))
  {
    forall f | 0 <= f < |s.flushes| ensures FlushOk(Apply(s, l), Apply(s, l).flushes[f]) {
      FlushOkStep(s, l, f);
    }
  }

  lemma ApplyInv(s: State, l: Label)
    requires Inv(s) && Enabled(s, l)
    ensures Inv(Apply(s, l))
  {
    TokensStep(s, l);
    FifoStep(s, l);
    MarkersStep(s, l);
    FlushStep(s, l);
  }

  lemma StepInv(s: State, s': State)
    requires Inv(s) && Next(s, s')
    ensures Inv(s')
  {
    var l :| Enabled(s, l) && s' == Apply(s, l);
    ApplyInv(s, l);
  }

  lemma {:induction false} RunInv(tr: seq<State>)
    requires Run(tr)
    ensures Inv(tr[|tr| - 1])
  {
    if |tr| > 1 {
      var n := |tr| - 1;
      RunInv(tr[..n]);
      StepInv(tr[n - 1], tr[n]);
    }
  }

  lemma FifoSplit(s: State)
    requires Fifo(s)
    ensures Items(s.history) == Items(s.history[..s.started]) + s.list
  {
    assert s.history == s.history[..s.started] + s.history[s.started..];
  }

  // What the queue promises, over every run

  /** The worker never finds the list empty, whatever schedulers, flushes and stop do. */
  lemma NeverEmptyQueue(tr: seq<State>)
    requires Run(tr)
    ensures !tr[|tr| - 1].emptyWarned
    ensures tr[|tr| - 1].worker.Locking? ==> tr[|tr| - 1].list != []
    ensures Tokens(tr[|tr| - 1])
  {
    RunInv(tr);
  }

  /** Items start in the order of their successful schedules, and none is linked twice. */
  lemma FifoRefinement(tr: seq<State>)
    requires Run(tr)
    ensures var s := tr[|tr| - 1];
      && s.started <= |s.history|
      && Items(s.history) == Items(s.history[..s.started]) + s.list
      && NoDuplicates(s.list)
  {
    RunInv(tr);
    FifoSplit(tr[|tr| - 1]);
  }

  /** Nothing gets stuck: scheduling and, on a live queue, flushing are always possible; while an item
      is linked or running and the worker has not exited, somebody can move; a flush can go on as soon
      as its marker has been taken. */
  lemma NeverStuck(tr: seq<State>, item: nat, f: nat)
    requires Run(tr)
    ensures var s := tr[|tr| - 1];
      && Enabled(s, Schedule(Work(item), None))
      && (s.worker.Running? ==> Enabled(s, Schedule(Work(item), Some(s.finished))) && Enabled(s, Finish))
      && (Enabled(s, CallFlush) <==> !ShouldExit(s))
      && (!s.worker.Exited? && (s.list != [] || s.worker.Running?) ==>
            Enabled(s, Raise) || Enabled(s, Down) || Enabled(s, Check) || Enabled(s, Take) || Enabled(s, Finish))
      && (f < |s.flushes| ==>
            match s.flushes[f].pc {
              case Queue1 => Enabled(s, FlushQueue(f))
              case Wait1(at1) => Enabled(s, FlushWake(f)) <==> at1 < s.started
              case Queue2(_) => Enabled(s, FlushQueue(f))
              case Wait2(_, at2) => Enabled(s, FlushWake(f)) <==> at2 < s.started
              case Returned(_, _) => true
            })
      && match s.stop {
           case NotCalled => Enabled(s, CallStop)
           case Flushing(g) => g < |s.flushes| && (Enabled(s, StopFlag) <==> s.flushes[g].pc.Returned?)
           case Flagged(_) => Enabled(s, StopRaise)
           case Raised(_) => Enabled(s, StopJoin) <==> s.worker.Exited?
           case Joined(_) => true
         }
  {
    RunInv(tr);
  }

  /** A schedule that is not already linked goes to the end of the list and of the history, with the
      item that made it; one that is linked changes nothing. */
  lemma ScheduleRecords(s: State, item: Item, parent: Option<nat>)
    requires Enabled(s, Schedule(item, parent))
    ensures var s' := Apply(s, Schedule(item, parent));
      if item in s.list then s' == s
      else s'.list == s.list + [item] && s'.history == s.history + [Entry(item, parent)]
           && s'.sem + s'.owed == s.sem + s.owed + 1
  {}

  /** When a flush returns, everything queued before its second marker has run to its end. */
  lemma FlushCovers(tr: seq<State>, f: nat, j: nat)
    requires Run(tr)
    requires var s := tr[|tr| - 1]; f < |s.flushes| && s.flushes[f].pc.Returned? && j < s.flushes[f].pc.at2
    ensures j < tr[|tr| - 1].finished
  {
    RunInv(tr);
    var s := tr[|tr| - 1];
    assert FlushOk(s, s.flushes[f]);
  }

  /** At the earliest moment at which a flush can return, while its second marker runs, what has run
      to its end is exactly what was queued before that marker. */
  lemma FlushCoversNoMore(tr: seq<State>, f: nat, j: nat)
    requires Run(tr)
    requires var s := tr[|tr| - 1]; f < |s.flushes| && HasAt2(s.flushes[f].pc)
    requires var s := tr[|tr| - 1]; s.worker.Running? && s.started == s.flushes[f].pc.at2 + 1
    ensures var s := tr[|tr| - 1]; j < s.finished <==> j < s.flushes[f].pc.at2
  {
    RunInv(tr);
  }

  /** When the double flush returns, everything queued before the call has run to its end, and so
      has everything those items queued while running. */
  lemma DoubleFlush(tr: seq<State>, f: nat, j: nat)
    requires Run(tr)
    requires var s := tr[|tr| - 1]; f < |s.flushes| && s.flushes[f].pc.Returned? && j < |s.history|
    requires var s := tr[|tr| - 1]; var n := s.flushes[f].calledAt;
      j < n || (s.history[j].parent.Some? && s.history[j].parent.value < n)
    ensures j < tr[|tr| - 1].finished
  {
    RunInv(tr);
    var s := tr[|tr| - 1];
    assert FlushOk(s, s.flushes[f]);
  }

  predicate CalledAt(s: State, f: nat, n: nat) {
    f < |s.flushes| && s.flushes[f].calledAt == n
  }

  lemma {:induction false} CalledAtStays(tr: seq<State>, i: nat, j: nat, f: nat, n: nat)
    requires Run(tr) && i <= j < |tr| && CalledAt(tr[i], f, n)
    ensures CalledAt(tr[j], f, n)
    decreases j
  {
    if i < j {
      CalledAtStays(tr, i, j - 1, f, n);
      assert Next(tr[j - 1], tr[j]);
      CalledAtNext(tr[j - 1], tr[j], f, n);
    }
  }

  lemma CalledAtNext(s: State, s': State, f: nat, n: nat)
    requires Next(s, s') && CalledAt(s, f, n)
    ensures CalledAt(s', f, n)
  {}

  /** The same, told from the call: an item queued before step `i` called a flush, or queued by such an
      item, has run to its end when that flush has returned. */
  lemma DoubleFlushOfCall(tr: seq<State>, i: nat, j: nat)
    requires Run(tr) && i + 1 < |tr| && Enabled(tr[i], CallFlush) && tr[i + 1] == Apply(tr[i], CallFlush)
    requires var s := tr[|tr| - 1]; var f := |tr[i].flushes|;
      f < |s.flushes| && s.flushes[f].pc.Returned? && j < |s.history|
    requires var s := tr[|tr| - 1]; var n := |tr[i].history|;
      j < n || (s.history[j].parent.Some? && s.history[j].parent.value < n)
    ensures j < tr[|tr| - 1].finished
  {
    CalledAtStays(tr, i + 1, |tr| - 1, |tr[i].flushes|, |tr[i].history|);
    DoubleFlush(tr, |tr[i].flushes|, j);
  }

  /** If nothing is scheduled after stop has queued its second marker, then stop returns with the
      list empty and every item ever scheduled run to its end. */
  lemma StopDrains(tr: seq<State>)
    requires Run(tr) && tr[|tr| - 1].stop.Joined? && tr[|tr| - 1].stop.f < |tr[|tr| - 1].flushes|
    requires var s := tr[|tr| - 1]; var pc := s.flushes[s.stop.f].pc;
      HasAt2(pc) ==> |s.history| == pc.at2 + 1
    ensures var s := tr[|tr| - 1]; s.list == [] && s.started == s.finished == |s.history|
  {
    RunInv(tr);
    var s := tr[|tr| - 1];
    assert FlushOk(s, s.flushes[s.stop.f]);
  }

  // Why the flush is made twice

  lemma Extend(tr: seq<State>, l: Label) returns (tr': seq<State>)
    requires Run(tr) && Enabled(tr[|tr| - 1], l)
    ensures Run(tr') && tr'[|tr'| - 1] == Apply(tr[|tr| - 1], l)
  {
    tr' := tr + [Apply(tr[|tr| - 1], l)];
  }

  /** Item 0 is running when a flush queues its first marker; then item 0 queues itself again. */
  lemma RescheduleBehindMarker() returns (tr: seq<State>)
    ensures Run(tr)
    ensures tr[|tr| - 1] ==
      State([Marker(0, false), Work(0)], 1, 1, Running, NotCalled, [Flush(1, Wait1(1))],
            FIRST_THREE, 1, 0, false)
  {
    tr := Extend([Init], Schedule(Work(0), None));
    tr := Extend(tr, Raise);
    tr := Extend(tr, Down);
    tr := Extend(tr, Check);
    tr := Extend(tr, Take);
    tr := Extend(tr, CallFlush);
    tr := Extend(tr, FlushQueue(0));
    tr := Extend(tr, Raise);
    tr := Extend(tr, Schedule(Work(0), Some(0)));
  }

  const FIRST_THREE: seq<Entry> :=
    [Entry(Work(0), None), Entry(Marker(0, false), None), Entry(Work(0), Some(0))]

  /** One round of flushing is not enough: its marker has run, and yet an item that was queued by an
      item queued before the call is still linked. */
  lemma SingleFlushFallsShort() returns (tr: seq<State>)
    ensures Run(tr)
    ensures tr[|tr| - 1] ==
      State([Work(0)], 0, 1, Running, NotCalled, [Flush(1, Queue2(1))], FIRST_THREE, 2, 1, false)
  {
    tr := RescheduleBehindMarker();
    tr := Extend(tr, Finish);
    tr := Extend(tr, Down);
    tr := Extend(tr, Check);
    tr := Extend(tr, Take);
    tr := Extend(tr, FlushWake(0));
  }

  const FIRST_FIVE: seq<Entry> :=
    FIRST_THREE + [Entry(Marker(0, true), None), Entry(Work(0), Some(2))]

  lemma RescheduleAgain() returns (tr: seq<State>)
    ensures Run(tr)
    ensures tr[|tr| - 1] ==
      State([Marker(0, true), Work(0)], 0, 2, Running, NotCalled, [Flush(1, Wait2(1, 3))], FIRST_FIVE, 3, 2, false)
  {
    tr := SingleFlushFallsShort();
    tr := Extend(tr, FlushQueue(0));
    tr := Extend(tr, Raise);
    tr := Extend(tr, Finish);
    tr := Extend(tr, Down);
    tr := Extend(tr, Check);
    tr := Extend(tr, Take);
    tr := Extend(tr, Schedule(Work(0), Some(2)));
  }

  /** Two rounds stop at the second generation: the flush has returned, and an item queued by an item
      that was itself queued by one from before the call is still linked. */
  lemma ThirdGenerationEscapes() returns (tr: seq<State>)
    ensures Run(tr)
    ensures tr[|tr| - 1] ==
      State([Work(0)], 0, 1, Running, NotCalled, [Flush(1, Returned(1, 3))], FIRST_FIVE, 4, 3, false)
  {
    tr := RescheduleAgain();
    tr := Extend(tr, Raise);
    tr := Extend(tr, Finish);
    tr := Extend(tr, Down);
    tr := Extend(tr, Check);
    tr := Extend(tr, Take);
    tr := Extend(tr, FlushWake(0));
  }

  lemma StopFlushes() returns (tr: seq<State>)
    ensures Run(tr)
    ensures tr[|tr| - 1] ==
      State([], 0, 0, Waiting, Flushing(0), [Flush(0, Queue2(0))], [Entry(Marker(0, false), None)], 1, 1, false)
  {
    tr := Extend([Init], CallStop);
    tr := Extend(tr, FlushQueue(0));
    tr := Extend(tr, Raise);
    tr := Extend(tr, Down);
    tr := Extend(tr, Check);
    tr := Extend(tr, Take);
    tr := Extend(tr, FlushWake(0));
    tr := Extend(tr, Finish);
  }

  const BOTH_MARKERS: seq<Entry> := [Entry(Marker(0, false), None), Entry(Marker(0, true), None)]

  lemma StopFlushesAgain() returns (tr: seq<State>)
    ensures Run(tr)
    ensures tr[|tr| - 1] ==
      State([], 0, 0, Waiting, Flushing(0), [Flush(0, Returned(0, 1))], BOTH_MARKERS, 2, 2, false)
  {
    tr := StopFlushes();
    tr := Extend(tr, FlushQueue(0));
    tr := Extend(tr, Raise);
    tr := Extend(tr, Down);
    tr := Extend(tr, Check);
    tr := Extend(tr, Take);
    tr := Extend(tr, FlushWake(0));
    tr := Extend(tr, Finish);
  }

  /** A run of stop on an idle queue, to its end. */
  lemma StopCompletes() returns (tr: seq<State>)
    ensures Run(tr)
    ensures tr[|tr| - 1] == State([], 0, 0, Exited, Joined(0), [Flush(0, Returned(0, 1))], BOTH_MARKERS, 2, 2, false)
  {
    tr := StopFlushesAgain();
    tr := Extend(tr, StopFlag);
    tr := Extend(tr, StopRaise);
    tr := Extend(tr, Down);
    tr := Extend(tr, Check);
    tr := Extend(tr, StopJoin);
  }

  /** The worker is about to wait for the semaphore, and every linked item's raise has been made. */
  ghost predicate Alone(s: State) {
    Inv(s) && s.worker.Waiting? && s.owed == 0
  }

  lemma NothingLeft(s: State)
    requires Alone(s) && s.sem == 0
    ensures s.list == []
  {}

  /** A pass of the worker with nobody else about takes the first linked item and runs it. */
  lemma WorkerPass(s: State) returns (s': State)
    requires Alone(s) && s.sem > 0 && !ShouldExit(s)
    ensures Alone(s') && s.list != []
    ensures s' == s.(sem := s.sem - 1, list := s.list[1..], started := s.started + 1, finished := s.finished + 1)
  {
    ApplyInv(s, Down);
    s' := Apply(s, Down);
    ApplyInv(s', Check);
    s' := Apply(s', Check);
    ApplyInv(s', Take);
    s' := Apply(s', Take);
    ApplyInv(s', Finish);
    s' := Apply(s', Finish);
  }

  lemma WorkerExits(s: State) returns (s': State)
    requires Alone(s) && s.sem > 0 && ShouldExit(s)
    ensures Inv(s') && s' == s.(sem := s.sem - 1, worker := Exited)
  {
    ApplyInv(s, Down);
    s' := Apply(s, Down);
    ApplyInv(s', Check);
    s' := Apply(s', Check);
  }

  // The queue in place

  /** nv_kthread_q_t. */
  class Queue {
    var list: seq<Item>    // q_list_head
    var sem: nat           // q_sem
    var shouldExit: bool   // main_loop_should_exit

    ghost predicate Shows(s: State)
      reads this
    {
      list == s.list && sem == s.sem && shouldExit == ShouldExit(s)
    }

    constructor ()
      ensures Shows(Init)
    {
      list, sem, shouldExit := [], 0, false;
    }

    /** nv_kthread_q_schedule_q_item by itself: nothing happens on a queue that is to exit or for an
        item already linked; otherwise the item goes to the end and the semaphore up. */
    method ScheduleItem(item: Item, ghost s: State, ghost parent: Option<nat>) returns (ret: bool)
      requires Shows(s)
      modifies this
      ensures ret <==> !old(shouldExit) && item !in old(list)
      ensures Shows(if ret then Apply(RawSchedule(s, item, parent), Raise) else s)
      ensures list == if ret then old(list) + [item] else old(list)
    {
      if shouldExit {
        return false;
      }
      ret := item !in list;
      if ret {
        list := list + [item];
        sem := sem + 1;
      }
    }

    /** One pass of _main_loop. */
    method Pass(ghost s: State) returns (ran: seq<Item>, exited: bool, warned: bool, ghost s': State)
      requires Shows(s) && Alone(s) && sem > 0
      modifies this
      ensures Shows(s') && Inv(s') && !warned && shouldExit == old(shouldExit) == exited
      ensures ran + list == old(list) && sem == old(sem) - 1 && s'.finished == s.finished + |ran|
      ensures if exited then ran == [] && s'.worker.Exited? else |ran| == 1 && Alone(s')
    {
      ran, exited, warned := [], false, false;
      sem := sem - 1;
      if shouldExit {
        s' := WorkerExits(s);
        exited := true;
        return;
      }
      s' := WorkerPass(s);
      if list == [] {
        warned := true;
      } else {
        ran, list := [list[0]], list[1..];
      }
    }

    /** _main_loop left to itself, until it waits for the semaphore or exits: it takes the linked
        items in order, never meets an empty list, and exits without taking any once told to. */
    method MainLoop(ghost s: State) returns (ran: seq<Item>, exited: bool, warned: bool, ghost s': State)
      requires Shows(s) && Alone(s)
      modifies this
      ensures Shows(s') && Inv(s')
      ensures exited <==> old(shouldExit) && old(sem) > 0
      ensures exited ==> s'.worker.Exited?
      ensures ran == (if exited then [] else old(list)) && list == (if exited then old(list) else [])
      ensures !warned && s'.finished == s.finished + |ran|
    {
      ran, exited, warned, s' := [], false, false, s;
      while sem > 0 && !exited
        invariant Shows(s') && Inv(s') && shouldExit == old(shouldExit)
        invariant if exited then shouldExit && old(sem) > 0 && s'.worker.Exited? && ran == []
                  else Alone(s') && (shouldExit ==> sem == old(sem) && ran == [])
        invariant ran + list == old(list)
        invariant s'.finished == s.finished + |ran| && !warned
        decreases sem
      {
        var more, w;
        more, exited, w, s' := Pass(s');
        Assoc(ran, more, list);
        ran, warned := ran + more, warned || w;
      }
      if !exited {
        NothingLeft(s');
      }
    }
  }
}
