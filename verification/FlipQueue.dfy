/**
 Flip completion on one CRTC (nvidia-drm-crtc.h, nvidia-drm-modeset.c): commits queue flips that
 count the hardware events still to come, flip events finish them, and a commit that will get no
 hardware event of its own defers its completion behind the flips still queued.
 */
module FlipQueue {
  import opened Base

  /** A queued flip: the completion event it owes, if any, the hardware events it waits for, and
      the events of the flips deferred until it is done. For the record, `asked` is how many hardware
      events it was queued for and `seen` how many have come. */
  datatype Flip = Flip(event: Option<nat>, pending: nat, deferred: seq<Option<nat>>, asked: nat, seen: nat)

  function Event(e: Option<nat>): seq<nat> {
    if e.Some? then [e.value] else []
  }

  /** The events in a deferred list, in the order in which they are sent. */
  function Events(es: seq<Option<nat>>): seq<nat> {
    if es == [] then [] else Event(es[0]) + Events(es[1..])
  }

  /** What finishing a flip sends: its own event, then the deferred ones. */
  function FlipEvents(f: Flip): seq<nat> {
    Event(f.event) + Events(f.deferred)
  }

  function ListEvents(l: seq<Flip>): seq<nat> {
    if l == [] then [] else FlipEvents(l[0]) + ListEvents(l[1..])
  }

  // Which planes report

  /** A plane of the committed state, as it was before the commit. */
  datatype PlaneState = PlaneState(onCrtc: bool, cursor: bool, hasFb: bool)

  predicate Reports(p: PlaneState, oldActive: bool) {
    p.onCrtc && !p.cursor && oldActive && p.hasFb
  }

  /** The planes whose flip the hardware will report. */
  function Reporting(ps: seq<PlaneState>, oldActive: bool): (r: set<nat>)
    ensures forall i: nat :: i in r <==> i < |ps| && oldActive && ps[i].onCrtc && !ps[i].cursor && ps[i].hasFb
  {
    set i: nat | i < |ps| && Reports(ps[i], oldActive)
  }

  /** __will_generate_flip_event: counts the reporting planes. */
  method WillGenerateFlipEvent(ps: seq<PlaneState>, oldActive: bool, newActive: bool)
    returns (pending: nat, will: bool)
    ensures pending == |Reporting(ps, oldActive)|
    ensures will <==> oldActive && exists i :: 0 <= i < |ps| && ps[i].onCrtc && !ps[i].cursor && ps[i].hasFb
  {
    pending := 0;
    if !oldActive && !newActive {
      assert Reporting(ps, oldActive) == {};
      return 0, false;
    }
    assert Reporting(ps[..0], oldActive) == {};
    for i := 0 to |ps|
      invariant pending == |Reporting(ps[..i], oldActive)|
    {
      var more := Reporting(ps[..i + 1], oldActive);
      if !ps[i].onCrtc || ps[i].cursor {
        assert more == Reporting(ps[..i], oldActive);
        continue;
      }
      if oldActive && ps[i].hasFb {
        assert more == Reporting(ps[..i], oldActive) + {i};
        pending := pending + 1;
      } else {
        assert more == Reporting(ps[..i], oldActive);
      }
    }
    assert ps[..|ps|] == ps;
    will := pending != 0;
    if will {
      var i :| i in Reporting(ps, oldActive);
    } else {
      assert Reporting(ps, oldActive) == {};
      assert forall i: nat :: i !in Reporting(ps, oldActive);
    }
  }

  // Locked regions

  /** The 32-bit decrement of `pending_events`. */
  function Decrement(n: nat): nat {
    if n == 0 then TWO_32 - 1 else n - 1
  }

  /** nv_drm_crtc_dequeue_flip: one hardware event for the first flip; the flip comes off the list
      when it was the last one. */
  function Dequeue(l: seq<Flip>): (seq<Flip>, Option<Flip>) {
    if l == [] then (l, None)
    else
      var f := l[0].(pending := Decrement(l[0].pending), seen := l[0].seen + 1);
      if f.pending == 0 then (l[1..], Some(f)) else ([f] + l[1..], None)
  }

  /** Puts a completed flip behind the last flip of the list. */
  function Defer(l: seq<Flip>, e: Option<nat>): seq<Flip>
    requires l != []
  {
    var n := |l| - 1;
    l[n := l[n].(deferred := [e] + l[n].deferred)]
  }

  predicate Counting(l: seq<Flip>) {
    forall i :: 0 <= i < |l| ==> l[i].pending >= 1
  }

  /** How many hardware events the list still waits for. */
  function Awaited(l: seq<Flip>): nat {
    if l == [] then 0 else l[0].pending + Awaited(l[1..])
  }

  /** No decrement wraps, and each takes exactly one of the awaited events. */
  lemma DequeueFacts(l: seq<Flip>)
    requires Counting(l) && l != []
    ensures var (l', f) := Dequeue(l);
      && Counting(l')
      && Awaited(l') == Awaited(l) - 1
      && ListEvents(l) == (if f.Some? then FlipEvents(f.value) else []) + ListEvents(l')
      && |l'| == |l| - (if f.Some? then 1 else 0)
  {}

  lemma {:induction false} CountDefer(l: seq<Flip>, e: Option<nat>, x: nat)
    requires l != []
    ensures Count(ListEvents(Defer(l, e)), x) == Count(ListEvents(l), x) + Count(Event(e), x)
  {
    if |l| == 1 {
      var es := [e] + l[0].deferred;
      assert es[1..] == l[0].deferred;
      assert l[1..] == [] && Defer(l, e)[1..] == [];
      assert ListEvents(l) == FlipEvents(l[0]);
      assert ListEvents(Defer(l, e)) == Event(l[0].event) + (Event(e) + Events(l[0].deferred));
      CountConcat(Event(l[0].event), Event(e) + Events(l[0].deferred), x);
      CountConcat(Event(e), Events(l[0].deferred), x);
      CountConcat(Event(l[0].event), Events(l[0].deferred), x);
    } else {
      assert Defer(l, e)[1..] == Defer(l[1..], e);
      CountDefer(l[1..], e, x);
      CountConcat(FlipEvents(l[0]), ListEvents(l[1..]), x);
      CountConcat(FlipEvents(l[0]), ListEvents(Defer(l[1..], e)), x);
    }
  }

  /** A completion deferred behind a last flip that has none yet is sent after everything queued. */
  lemma {:induction false} DeferAppends(l: seq<Flip>, e: Option<nat>)
    requires l != [] && l[|l| - 1].deferred == []
    ensures ListEvents(Defer(l, e)) == ListEvents(l) + Event(e)
  {
    if |l| == 1 {
      assert [e] + l[0].deferred == [e];
      assert Defer(l, e) == [l[0].(deferred := [e])];
      assert [e][1..] == [] && Events([]) == [] && Events([e]) == Event(e);
      assert l[1..] == [] && Defer(l, e)[1..] == [];
    } else {
      assert Defer(l, e)[1..] == Defer(l[1..], e);
      DeferAppends(l[1..], e);
      Assoc(FlipEvents(l[0]), ListEvents(l[1..]), Event(e));
    }
  }

  /** The flip list of a CRTC with the source's operations run in place. */
  class Crtc {
    var flips: seq<Flip>
    var delivered: seq<nat>

    predicate Valid()
      reads this
    {
      Counting(flips)
    }

    constructor ()
      ensures Valid() && flips == [] && delivered == []
    {
      flips, delivered := [], [];
    }

    /** nv_drm_crtc_enqueue_flip. */
    method Enqueue(f: Flip)
      requires Valid() && f.pending >= 1
      modifies this
      ensures Valid() && flips == [f] + old(flips) && delivered == old(delivered)
    {
      flips := [f] + flips;
    }

    /** __nv_drm_handle_flip_event. */
    method HandleFlipEvent()
      requires Valid()
      modifies this
      ensures Valid() && flips == Dequeue(old(flips)).0
      ensures delivered == old(delivered) +
        if Dequeue(old(flips)).1.Some? then FlipEvents(Dequeue(old(flips)).1.value) else []
    {
      if flips == [] {
        return;
      }
      DequeueFacts(flips);
      var f := flips[0].(pending := Decrement(flips[0].pending), seen := flips[0].seen + 1);
      if f.pending != 0 {
        flips := [f] + flips[1..];
        return;
      }
      flips := flips[1..];
      ghost var all := delivered + FlipEvents(f);
      Assoc(delivered, Event(f.event), Events(f.deferred));
      delivered := delivered + Event(f.event);
      var rest := f.deferred;
      while rest != []
        invariant delivered + Events(rest) == all
        invariant flips == old(flips)[1..]
        decreases |rest|
      {
        Assoc(delivered, Event(rest[0]), Events(rest[1..]));
        delivered := delivered + Event(rest[0]);
        rest := rest[1..];
      }
    }

    /** The loop that gives up waiting: it ends after exactly as many rounds as events were
        awaited, with every owed event sent, first flip first. */
    method Drain() returns (rounds: nat)
      requires Valid()
      modifies this
      ensures flips == []
      ensures rounds == Awaited(old(flips))
      ensures delivered == old(delivered) + ListEvents(old(flips))
    {
      rounds := 0;
      while flips != []
        invariant Valid()
        invariant rounds + Awaited(flips) == Awaited(old(flips))
        invariant delivered + ListEvents(flips) == old(delivered) + ListEvents(old(flips))
        decreases Awaited(flips)
      {
        DequeueFacts(flips);
        ghost var (after, f) := Dequeue(flips);
        Assoc(delivered, if f.Some? then FlipEvents(f.value) else [], ListEvents(after));
        HandleFlipEvent();
        rounds := rounds + 1;
      }
    }
  }

  // Every interleaving of commits and flip events

  /** Where the commit on this CRTC is. The core DRM lock admits one at a time. */
  datatype CommitPc =
    | Idle
    | Begun(event: Option<nat>, pending: nat, blocking: bool)
    | Applied(event: Option<nat>, blocking: bool)      // no hardware event will come for it
    | Delivering(event: Option<nat>, blocking: bool)   // it has found the list empty
    | Waiting                                          // a blocking commit, until the list is empty
    | Draining                                         // that wait has timed out

  datatype State = State(
    flips: seq<Flip>,
    inHand: Option<Flip>,     // taken off the list by a handler that holds event_lock
    commit: CommitPc,
    committed: seq<nat>,      // the events of all commits so far, in order
    delivered: seq<nat>,
    overtaken: bool,          // a flip with an event was queued while another event was still queued
    announced: nat,           // hardware events announced by all commits so far
    consumed: nat             // hardware events that have found a flip
  )

  datatype Label =
    | Begin(wantsEvent: bool, pending: nat, blocking: bool)
    | ApplyCommit
    | Settle
    | DeliverNow
    | WaitDone
    | WaitTimeout
    | DrainFlip
    | DrainDone
    | FlipEvent
    | HandlerDeliver

  const Init: State := State([], None, Idle, [], [], false, 0, 0)

  /** A commit that does not block is refused while the list is not empty; one that blocks begins on
      such a list only after its first wait has timed out. */
  predicate Enabled(s: State, l: Label) {
    match l
    case Begin(_, _, blocking) => s.commit.Idle? && (s.flips == [] || blocking)
    case ApplyCommit => s.commit.Begun?
    case Settle => s.commit.Applied?
    case DeliverNow => s.commit.Delivering? && s.inHand.None?
    case WaitDone => s.commit.Waiting? && s.flips == []
    case WaitTimeout => s.commit.Waiting? && s.flips != []
    case DrainFlip => s.commit.Draining? && s.flips != [] && s.inHand.None?
    case DrainDone => s.commit.Draining? && s.flips == []
    case FlipEvent => s.inHand.None?
    case HandlerDeliver => s.inHand.Some?
  }

  /** What follows the delivery part of a commit. */
  function Closing(blocking: bool): CommitPc {
    if blocking then Waiting else Idle
  }

  /** The commit is about to queue a flip with an event in front of a queued event. */
  predicate Overtakes(s: State) {
    s.commit.Begun? && s.commit.pending != 0 && s.commit.event.Some? && ListEvents(s.flips) != []
  }

  function NewFlip(e: Option<nat>, pending: nat): Flip {
    Flip(e, pending, [], pending, 0)
  }

  /** A handler with `event_lock` takes one hardware event off the list. */
  function Consume(s: State): State {
    s.(flips := Dequeue(s.flips).0, inHand := Dequeue(s.flips).1,
       consumed := s.consumed + if s.flips == [] then 0 else 1)
  }

  function Apply(s: State, l: Label): State
    requires Enabled(s, l)
  {
    match l
    case Begin(wantsEvent, pending, blocking) =>
      var e := if wantsEvent then Some(|s.committed|) else None;
      s.(commit := Begun(e, pending, blocking), committed := s.committed + Event(e),
         announced := s.announced + pending)
    case ApplyCommit =>
      if s.commit.pending != 0
      then s.(commit := Closing(s.commit.blocking), overtaken := s.overtaken || Overtakes(s),
              flips := [NewFlip(s.commit.event, s.commit.pending)] + s.flips)
      else s.(commit := Applied(s.commit.event, s.commit.blocking))
    case Settle =>
      if s.flips != [] then s.(commit := Closing(s.commit.blocking), flips := Defer(s.flips, s.commit.event))
      else s.(commit := Delivering(s.commit.event, s.commit.blocking))
    case DeliverNow =>
      s.(commit := Closing(s.commit.blocking), delivered := s.delivered + Event(s.commit.event))
    case WaitDone => s.(commit := Idle)
    case WaitTimeout => s.(commit := Draining)
    case DrainFlip => Consume(s)
    case DrainDone => s.(commit := Idle)
    case FlipEvent => Consume(s)
    case HandlerDeliver => s.(inHand := None, delivered := s.delivered + FlipEvents(s.inHand.value))
  }

  ghost predicate Next(s: State, s': State) {
    exists l :: Enabled(s, l) && s' == Apply(s, l)
  }

  ghost predicate Run(tr: seq<State>) {
    |tr| > 0 && tr[0] == Init && forall i :: 0 < i < |tr| ==> Next(tr[i - 1], tr[i])
  }

  predicate HoldsFlip(c: CommitPc) { c.Begun? || c.Applied? || c.Delivering? }

  predicate Closed(c: CommitPc) { c.Waiting? || c.Draining? }

  function CommitEvents(c: CommitPc): seq<nat> {
    if HoldsFlip(c) then Event(c.event) else []
  }

  function HandEvents(f: Option<Flip>): seq<nat> {
    if f.Some? then FlipEvents(f.value) else []
  }

  /** Every event: sent, in a handler's hand, queued or deferred, or with the commit. */
  function Everything(s: State): seq<nat> {
    s.delivered + HandEvents(s.inHand) + ListEvents(s.flips) + CommitEvents(s.commit)
  }

  // How long the lists get

  /** At most one flip is queued, with nothing deferred, except while a blocking commit closes: then
      it may be two, or one with one completion deferred. */
  predicate Shape(s: State) {
    && Counting(s.flips)
    && |s.flips| <= (if Closed(s.commit) then 2 else 1)
    && (forall i :: 0 <= i < |s.flips| ==> |s.flips[i].deferred| <= if Closed(s.commit) then 1 else 0)
    && (s.inHand.Some? ==> |s.inHand.value.deferred| <= 1)
    && (HoldsFlip(s.commit) && !s.commit.blocking ==> s.flips == [])
    && (s.commit.Delivering? ==> s.flips == [])
  }

  lemma ShapeStep(s: State, l: Label)
    requires Enabled(s, l) && Shape(s)
    ensures Shape(Apply(s, l))
  {}

  lemma {:induction false} ShapeRun(tr: seq<State>)
    requires Run(tr)
    ensures Shape(tr[|tr| - 1])
  {
    var n := |tr| - 1;
    if n > 0 {
      ShapeRun(tr[..n]);
      assert Next(tr[n - 1], tr[n]);
      var l :| Enabled(tr[n - 1], l) && tr[n] == Apply(tr[n - 1], l);
      ShapeStep(tr[n - 1], l);
    }
  }

  // Every announced hardware event counts

  predicate FlipTally(f: Flip) { f.pending + f.seen == f.asked }

  /** What the queued flips and an open commit still wait for, and what has come, is what was
      announced; a flip in hand has seen all it was queued for. */
  predicate Tally(s: State) {
    && Awaited(s.flips) + s.consumed + (if s.commit.Begun? then s.commit.pending else 0) == s.announced
    && (forall i :: 0 <= i < |s.flips| ==> FlipTally(s.flips[i]))
    && (s.inHand.Some? ==> s.inHand.value.seen == s.inHand.value.asked)
  }

  lemma {:induction false} AwaitedDefer(l: seq<Flip>, e: Option<nat>)
    requires l != []
    ensures Awaited(Defer(l, e)) == Awaited(l)
  {
    if |l| == 1 {
      assert Defer(l, e)[1..] == l[1..];
    } else {
      assert Defer(l, e)[1..] == Defer(l[1..], e);
      AwaitedDefer(l[1..], e);
    }
  }

  lemma EnqueueTally(s: State)
    requires Enabled(s, ApplyCommit) && Tally(s)
    ensures Tally(Apply(s, ApplyCommit))
  {
    var l := [NewFlip(s.commit.event, s.commit.pending)] + s.flips;
    assert l[1..] == s.flips;
  }

  lemma ConsumeTally(s: State)
    requires s.inHand.None? && Shape(s) && Tally(s)
    ensures Tally(Consume(s))
  {
    if s.flips != [] {
      DequeueFacts(s.flips);
      assert FlipTally(s.flips[0]);
    }
  }

  lemma SettleTally(s: State)
    requires Enabled(s, Settle) && Tally(s)
    ensures Tally(Apply(s, Settle))
  {
    if s.flips != [] {
      AwaitedDefer(s.flips, s.commit.event);
    }
  }

  lemma TallyStep(s: State, l: Label)
    requires Enabled(s, l) && Shape(s) && Tally(s)
    ensures Tally(Apply(s, l))
  {
    if l.ApplyCommit? {
      EnqueueTally(s);
    } else if l.Settle? {
      SettleTally(s);
    } else if l.FlipEvent? || l.DrainFlip? {
      ConsumeTally(s);
    } else {
      assert Apply(s, l).flips == s.flips;
    }
  }

  lemma {:induction false} TallyRun(tr: seq<State>)
    requires Run(tr)
    ensures Tally(tr[|tr| - 1])
  {
    var n := |tr| - 1;
    if n > 0 {
      TallyRun(tr[..n]);
      ShapeRun(tr[..n]);
      assert Next(tr[n - 1], tr[n]);
      var l :| Enabled(tr[n - 1], l) && tr[n] == Apply(tr[n - 1], l);
      TallyStep(tr[n - 1], l);
    }
  }

  // Nothing is lost

  predicate Conserved(s: State, x: nat) {
    Count(s.committed, x)
      == Count(s.delivered, x) + Count(HandEvents(s.inHand), x) + Count(ListEvents(s.flips), x)
         + Count(CommitEvents(s.commit), x)
  }

  lemma EnqueueEvents(l: seq<Flip>, e: Option<nat>, pending: nat)
    ensures ListEvents([NewFlip(e, pending)] + l) == Event(e) + ListEvents(l)
  {
    var f := NewFlip(e, pending);
    assert ([f] + l)[1..] == l;
    assert FlipEvents(f) == Event(e);
  }

  lemma ApplyConserved(s: State, x: nat)
    requires Enabled(s, ApplyCommit) && Conserved(s, x)
    ensures Conserved(Apply(s, ApplyCommit), x)
  {
    if s.commit.pending != 0 {
      EnqueueEvents(s.flips, s.commit.event, s.commit.pending);
      CountConcat(Event(s.commit.event), ListEvents(s.flips), x);
    }
  }

  lemma FlipEventConserved(s: State, x: nat)
    requires s.inHand.None? && Counting(s.flips) && Conserved(s, x)
    ensures Conserved(Consume(s), x)
  {
    if s.flips != [] {
      DequeueFacts(s.flips);
      CountConcat(HandEvents(Dequeue(s.flips).1), ListEvents(Dequeue(s.flips).0), x);
    }
  }

  lemma DeliverConserved(s: State, l: Label, x: nat)
    requires Enabled(s, l) && (l.DeliverNow? || l.HandlerDeliver?) && Conserved(s, x)
    ensures Conserved(Apply(s, l), x)
  {
    CountConcat(s.delivered, if l.DeliverNow? then Event(s.commit.event) else FlipEvents(s.inHand.value), x);
  }

  lemma SettleConserved(s: State, x: nat)
    requires Enabled(s, Settle) && Conserved(s, x)
    ensures Conserved(Apply(s, Settle), x)
  {
    if s.flips != [] {
      CountDefer(s.flips, s.commit.event, x);
    }
  }

  lemma BeginConserved(s: State, l: Label, x: nat)
    requires l.Begin? && Enabled(s, l) && Conserved(s, x)
    ensures Conserved(Apply(s, l), x)
  {
    CountConcat(s.committed, Event(if l.wantsEvent then Some(|s.committed|) else None), x);
  }

  lemma ConservedStep(s: State, l: Label, x: nat)
    requires Enabled(s, l) && Counting(s.flips) && Conserved(s, x)
    ensures Conserved(Apply(s, l), x)
  {
    if l.Begin? {
      BeginConserved(s, l, x);
    } else if l.ApplyCommit? {
      ApplyConserved(s, x);
    } else if l.Settle? {
      SettleConserved(s, x);
    } else if l.FlipEvent? || l.DrainFlip? {
      FlipEventConserved(s, x);
    } else if l.DeliverNow? || l.HandlerDeliver? {
      DeliverConserved(s, l, x);
    }
  }

  lemma {:induction false} ConservedRun(tr: seq<State>, x: nat)
    requires Run(tr)
    ensures Conserved(tr[|tr| - 1], x)
  {
    var n := |tr| - 1;
    if n > 0 {
      ConservedRun(tr[..n], x);
      ShapeRun(tr[..n]);
      assert Next(tr[n - 1], tr[n]);
      var l :| Enabled(tr[n - 1], l) && tr[n] == Apply(tr[n - 1], l);
      ConservedStep(tr[n - 1], l, x);
    }
  }

  /** Commits take their events' numbers in order, and the open commit has the last one. */
  predicate Numbered(s: State) {
    && (forall i :: 0 <= i < |s.committed| ==> s.committed[i] == i)
    && (HoldsFlip(s.commit) && s.commit.event.Some? ==> |s.committed| == s.commit.event.value + 1)
  }

  lemma {:induction false} NumberedRun(tr: seq<State>)
    requires Run(tr)
    ensures Numbered(tr[|tr| - 1])
  {
    var n := |tr| - 1;
    if n > 0 {
      NumberedRun(tr[..n]);
      assert Next(tr[n - 1], tr[n]);
    }
  }

  lemma {:induction false} IdentityCount(c: seq<nat>, x: nat)
    requires forall i :: 0 <= i < |c| ==> c[i] == i
    ensures Count(c, x) == if x < |c| then 1 else 0
  {
    if c != [] {
      IdentityCount(c[..|c| - 1], x);
    }
  }

  lemma {:induction false} CountPresent(c: seq<nat>, i: nat)
    requires i < |c|
    ensures Count(c, c[i]) > 0
  {
    if i < |c| - 1 {
      CountPresent(c[..|c| - 1], i);
    }
  }

  // Order

  /** Some event comes before a smaller one. */
  predicate Inverted(c: seq<nat>) {
    exists i, j :: 0 <= i < j < |c| && c[i] > c[j]
  }

  lemma InversionGrows(c: seq<nat>, more: seq<nat>)
    requires Inverted(c)
    ensures Inverted(c + more)
  {
    var i, j :| 0 <= i < j < |c| && c[i] > c[j];
    assert (c + more)[i] == c[i] && (c + more)[j] == c[j];
  }

  /** What was sent, is in a handler's hand or is queued, in that order. */
  function Released(s: State): seq<nat> {
    s.delivered + HandEvents(s.inHand) + ListEvents(s.flips)
  }

  /** Everything sent or queued before the open commit's event was numbered before it. */
  lemma OpenIsLast(s: State, k: nat)
    requires Numbered(s) && HoldsFlip(s.commit) && s.commit.event.Some? && k < |Released(s)|
    requires Conserved(s, Released(s)[k])
    ensures Released(s)[k] < s.commit.event.value
  {
    var x := Released(s)[k];
    CountPresent(Released(s), k);
    CountConcat(s.delivered + HandEvents(s.inHand), ListEvents(s.flips), x);
    CountConcat(s.delivered, HandEvents(s.inHand), x);
    IdentityCount(s.committed, x);
    assert x == s.commit.event.value ==> Count([x], x) == 1;
  }

  predicate OrderOk(s: State) {
    if s.overtaken then Inverted(Everything(s)) else Everything(s) == s.committed
  }

  ghost predicate AllConserved(s: State) {
    forall x: nat :: Conserved(s, x)
  }

  lemma DequeueOrder(s: State)
    requires s.inHand.None? && Counting(s.flips)
    ensures Everything(Consume(s)) == Everything(s)
  {
    if s.flips != [] {
      DequeueFacts(s.flips);
      assert s.delivered + [] == s.delivered;
      Assoc(s.delivered, HandEvents(Dequeue(s.flips).1), ListEvents(Dequeue(s.flips).0));
    }
  }

  lemma SettleOrder(s: State)
    requires Enabled(s, Settle) && Shape(s)
    ensures Everything(Apply(s, Settle)) == Everything(s)
  {
    if s.flips != [] {
      DeferAppends(s.flips, s.commit.event);
      Assoc(s.delivered + HandEvents(s.inHand), ListEvents(s.flips), Event(s.commit.event));
    }
  }

  lemma EnqueueShape(s: State)
    requires Enabled(s, ApplyCommit) && s.commit.pending != 0
    ensures Everything(Apply(s, ApplyCommit))
         == s.delivered + HandEvents(s.inHand) + Event(s.commit.event) + ListEvents(s.flips)
  {
    EnqueueEvents(s.flips, s.commit.event, s.commit.pending);
    Assoc(s.delivered + HandEvents(s.inHand), Event(s.commit.event), ListEvents(s.flips));
  }

  /** Queueing a flip keeps the order exactly when it carries no event or no event is queued. */
  lemma EnqueueKeepsOrderIff(s: State)
    requires Enabled(s, ApplyCommit) && s.commit.pending != 0 && Numbered(s) && AllConserved(s)
    requires Everything(s) == s.committed
    ensures Everything(Apply(s, ApplyCommit)) == s.committed
       <==> s.commit.event.None? || ListEvents(s.flips) == []
  {
    EnqueueShape(s);
    if Overtakes(s) {
      OvertakeInverts(s);
    }
  }

  lemma OvertakeInverts(s: State)
    requires Enabled(s, ApplyCommit) && Overtakes(s) && Numbered(s) && AllConserved(s)
    ensures Inverted(Everything(Apply(s, ApplyCommit)))
  {
    EnqueueShape(s);
    var k := |s.delivered + HandEvents(s.inHand)|;
    var after := Everything(Apply(s, ApplyCommit));
    assert Released(s)[k] == ListEvents(s.flips)[0];
    OpenIsLast(s, k);
    assert after[k] == s.commit.event.value && after[k + 1] == Released(s)[k];
  }

  lemma EnqueueSame(s: State)
    requires Enabled(s, ApplyCommit) && !Overtakes(s)
    ensures Everything(Apply(s, ApplyCommit)) == Everything(s)
  {
    if s.commit.pending != 0 {
      EnqueueShape(s);
    }
  }

  lemma BeginOrder(s: State, l: Label)
    requires l.Begin? && Enabled(s, l) && OrderOk(s)
    ensures OrderOk(Apply(s, l))
  {
    var e := Event(if l.wantsEvent then Some(|s.committed|) else None);
    assert Everything(Apply(s, l)) == Everything(s) + e;
    if s.overtaken {
      InversionGrows(Everything(s), e);
    }
  }

  lemma DeliverOrder(s: State, l: Label)
    requires Enabled(s, l) && (l.DeliverNow? || l.HandlerDeliver?) && Shape(s)
    ensures Everything(Apply(s, l)) == Everything(s)
  {}

  lemma WaitOrder(s: State, l: Label)
    requires Enabled(s, l) && (l.WaitDone? || l.WaitTimeout? || l.DrainDone?)
    ensures Everything(Apply(s, l)) == Everything(s)
  {}

  /** Only a commit that begins, or one that overtakes, changes the order of all events. */
  lemma OtherOrder(s: State, l: Label)
    requires Enabled(s, l) && Shape(s) && !l.Begin? && !(l.ApplyCommit? && Overtakes(s))
    ensures var s' := Apply(s, l);
      Everything(s') == Everything(s) && s'.committed == s.committed && s'.overtaken == s.overtaken
  {
    if l.ApplyCommit? {
      EnqueueSame(s);
    } else if l.Settle? {
      SettleOrder(s);
    } else if l.FlipEvent? || l.DrainFlip? {
      DequeueOrder(s);
    } else if l.DeliverNow? || l.HandlerDeliver? {
      DeliverOrder(s, l);
    } else {
      WaitOrder(s, l);
    }
  }

  lemma OrderStep(s: State, l: Label)
    requires Enabled(s, l) && Shape(s) && Numbered(s) && AllConserved(s) && OrderOk(s)
    ensures OrderOk(Apply(s, l))
  {
    if l.Begin? {
      BeginOrder(s, l);
    } else if l.ApplyCommit? && Overtakes(s) {
      OvertakeInverts(s);
    } else {
      OtherOrder(s, l);
    }
  }

  lemma AllConservedRun(tr: seq<State>, s: State)
    requires Run(tr) && s == tr[|tr| - 1]
    ensures AllConserved(s)
  {
    forall x: nat ensures Conserved(s, x) {
      ConservedRun(tr, x);
    }
  }

  lemma {:induction false} OrderRun(tr: seq<State>)
    requires Run(tr)
    ensures OrderOk(tr[|tr| - 1])
  {
    var n := |tr| - 1;
    if n > 0 {
      OrderRun(tr[..n]);
      ShapeRun(tr[..n]);
      NumberedRun(tr[..n]);
      AllConservedRun(tr[..n], tr[n - 1]);
      assert Next(tr[n - 1], tr[n]);
      var l :| Enabled(tr[n - 1], l) && tr[n] == Apply(tr[n - 1], l);
      OrderStep(tr[n - 1], l);
    }
  }

  // What a run guarantees

  /** Every queued flip waits for at least one event, so `pending_events` never wraps. */
  lemma NeverWraps(tr: seq<State>, i: nat)
    requires Run(tr) && i < |tr[|tr| - 1].flips|
    ensures Decrement(tr[|tr| - 1].flips[i].pending) == tr[|tr| - 1].flips[i].pending - 1
  {
    ShapeRun(tr);
  }

  /** Over every run the hardware events announced by the commits are those that have found a flip
      and those still awaited, by a queued flip or by the commit about to queue one. A queued flip has
      seen fewer than it was queued for, and a flip whose events are about to be sent exactly as many. */
  lemma EventsAddUp(tr: seq<State>)
    requires Run(tr)
    ensures var s := tr[|tr| - 1];
      && Awaited(s.flips) + s.consumed + (if s.commit.Begun? then s.commit.pending else 0) == s.announced
      && (forall i :: 0 <= i < |s.flips| ==> s.flips[i].seen < s.flips[i].asked)
      && (s.inHand.Some? ==> s.inHand.value.seen == s.inHand.value.asked)
  {
    TallyRun(tr);
    ShapeRun(tr);
    var s := tr[|tr| - 1];
    forall i | 0 <= i < |s.flips| ensures s.flips[i].seen < s.flips[i].asked {
      assert FlipTally(s.flips[i]);
    }
  }

  /** A commit that announces hardware events queues a flip for exactly that many; one that announces
      none queues nothing. */
  lemma QueuedForItsCount(s0: State, l: Label)
    requires l.Begin? && Enabled(s0, l)
    ensures var s := Apply(s0, l); var s' := Apply(s, ApplyCommit);
      if l.pending == 0 then s'.flips == s.flips
      else |s'.flips| == |s.flips| + 1 && s'.flips[1..] == s.flips
           && s'.flips[0].asked == s'.flips[0].pending == l.pending && s'.flips[0].seen == 0
           && Event(s'.flips[0].event) == s.committed[|s0.committed|..]
  {}

  /** The list never holds more than two flips, and one only between commits; no flip ever has more
      than one completion deferred behind it; a commit that does not block never finds a flip. */
  lemma ListsStayShort(tr: seq<State>)
    requires Run(tr)
    ensures var s := tr[|tr| - 1];
      && |s.flips| <= 2 && (s.commit.Idle? ==> |s.flips| <= 1)
      && (forall i :: 0 <= i < |s.flips| ==> |s.flips[i].deferred| <= 1)
      && (HoldsFlip(s.commit) && !s.commit.blocking ==> s.flips == [])
  {
    ShapeRun(tr);
  }

  /** A commit is refused exactly if it does not block and a flip is still queued; a commit that has
      begun can always go on, if need be after the handler that holds `event_lock`. */
  lemma CommitsGoOn(tr: seq<State>, wantsEvent: bool, pending: nat, blocking: bool)
    requires Run(tr)
    ensures var s := tr[|tr| - 1];
      && (s.commit.Idle? ==> (Enabled(s, Begin(wantsEvent, pending, blocking)) <==> blocking || s.flips == []))
      && (s.inHand.Some? ==> Enabled(s, HandlerDeliver))
      && (s.inHand.None? ==> Enabled(s, FlipEvent))
      && match s.commit {
           case Idle => true
           case Begun(_, _, _) => Enabled(s, ApplyCommit)
           case Applied(_, _) => Enabled(s, Settle)
           case Delivering(_, _) => s.inHand.None? ==> Enabled(s, DeliverNow)
           case Waiting => Enabled(s, if s.flips == [] then WaitDone else WaitTimeout)
           case Draining => s.inHand.None? ==> Enabled(s, if s.flips == [] then DrainDone else DrainFlip)
         }
  {}

  /** How far a commit still has to go. */
  function CommitRank(c: CommitPc): nat {
    match c
    case Begun(_, _, _) => 5
    case Applied(_, _) => 4
    case Delivering(_, _) => 3
    case Waiting => 2
    case Draining => 1
    case Idle => 0
  }

  /** Every commit comes to its end: each of its steps brings it closer, draining takes one awaited
      event per step, and nothing but a new commit moves it back. */
  lemma CommitsEnd(tr: seq<State>, l: Label)
    requires Run(tr) && Enabled(tr[|tr| - 1], l) && !l.Begin?
    ensures var s := tr[|tr| - 1]; var s' := Apply(s, l);
      if l.FlipEvent? || l.HandlerDeliver? then s'.commit == s.commit
      else if l.DrainFlip? then s'.commit == s.commit && Awaited(s'.flips) == Awaited(s.flips) - 1
      else CommitRank(s'.commit) < CommitRank(s.commit)
  {
    ShapeRun(tr);
    if l.DrainFlip? {
      DequeueFacts(tr[|tr| - 1].flips);
    }
  }

  /** Over any run each commit's event is sent exactly once, or is still held exactly once: by a
      handler, in the flip list or one of its deferred lists, or by the commit itself. */
  lemma EventInOnePlace(tr: seq<State>, x: nat)
    requires Run(tr) && x < |tr[|tr| - 1].committed|
    ensures var s := tr[|tr| - 1];
      Count(s.delivered, x) + Count(HandEvents(s.inHand), x) + Count(ListEvents(s.flips), x)
        + Count(CommitEvents(s.commit), x) == 1
  {
    ConservedRun(tr, x);
    NumberedRun(tr);
    IdentityCount(tr[|tr| - 1].committed, x);
  }

  lemma EverythingSplit(s: State)
    ensures s.delivered <= Everything(s)
    ensures s.commit.Idle? && s.flips == [] && s.inHand.None? ==> Everything(s) == s.delivered
  {
    var held := HandEvents(s.inHand) + ListEvents(s.flips) + CommitEvents(s.commit);
    assert Everything(s) == s.delivered + held;
  }

  lemma IdentityInOrder(c: seq<nat>)
    requires forall i :: 0 <= i < |c| ==> c[i] == i
    ensures !Inverted(c)
  {}

  /** Events sent, in hand, queued and with the commit, taken in that order, are the committed ones
      in commit order exactly if no flip with an event was ever queued in front of a queued event.
      So without such an overtaking what was sent is a prefix of what was committed, through
      deferrals too, and after one the order is lost for good. */
  lemma DeliveryInOrder(tr: seq<State>)
    requires Run(tr)
    ensures var s := tr[|tr| - 1];
      && (Everything(s) == s.committed <==> !s.overtaken)
      && (!s.overtaken ==> s.delivered <= s.committed)
      && (s.commit.Idle? && s.flips == [] && s.inHand.None? ==> (s.delivered == s.committed <==> !s.overtaken))
  {
    OrderRun(tr);
    NumberedRun(tr);
    EverythingSplit(tr[|tr| - 1]);
    IdentityInOrder(tr[|tr| - 1].committed);
  }

  /** Overtaking takes a blocking commit whose first wait timed out. */
  lemma OvertakingBlocks(tr: seq<State>)
    requires Run(tr) && Overtakes(tr[|tr| - 1])
    ensures tr[|tr| - 1].commit.blocking
  {
    ShapeRun(tr);
  }

  lemma Extend(tr: seq<State>, l: Label) returns (tr': seq<State>)
    requires Run(tr) && Enabled(tr[|tr| - 1], l)
    ensures Run(tr') && tr'[|tr'| - 1] == Apply(tr[|tr| - 1], l)
  {
    tr' := tr + [Apply(tr[|tr| - 1], l)];
  }

  /** A blocking commit that begins on a list that is not empty can overtake: new flips go to the
      front, so the event of commit 1 is sent while that of commit 0 is still owed. */
  lemma OverlapReorders() returns (tr: seq<State>)
    ensures Run(tr) && tr[|tr| - 1].committed == [0, 1] && tr[|tr| - 1].delivered == [1]
  {
    tr := Extend([Init], Begin(true, 1, false));
    tr := Extend(tr, ApplyCommit);
    tr := Extend(tr, Begin(true, 1, true));
    tr := Extend(tr, ApplyCommit);
    tr := Extend(tr, FlipEvent);
    tr := Extend(tr, HandlerDeliver);
  }

  /** The deferral at work: commit 1 gets no hardware event and waits behind commit 0. */
  lemma Deferral() returns (tr: seq<State>)
    ensures Run(tr)
    ensures tr[|tr| - 1] == State([Flip(Some(0), 1, [Some(1)], 1, 0)], None, Waiting, [0, 1], [], false, 1, 0)
  {
    tr := Extend([Init], Begin(true, 1, false));
    tr := Extend(tr, ApplyCommit);
    tr := Extend(tr, Begin(true, 0, true));
    tr := Extend(tr, ApplyCommit);
    assert tr[|tr| - 1].flips == [NewFlip(Some(0), 1)];
    assert [Some(1)] + [] == [Some(1)];
    assert Defer([NewFlip(Some(0), 1)], Some(1)) == [Flip(Some(0), 1, [Some(1)], 1, 0)];
    tr := Extend(tr, Settle);
  }

  /** Both events are then sent by the one flip event, in commit order. */
  lemma DeferralInOrder(tr: seq<State>) returns (tr': seq<State>)
    requires Run(tr)
    requires tr[|tr| - 1] == State([Flip(Some(0), 1, [Some(1)], 1, 0)], None, Waiting, [0, 1], [], false, 1, 0)
    ensures Run(tr') && tr'[|tr'| - 1] == State([], None, Waiting, [0, 1], [0, 1], false, 1, 1)
  {
    tr' := Extend(tr, FlipEvent);
    assert [Some(1)][1..] == [] && Events([]) == [] && Events([Some(1)]) == [1];
    tr' := Extend(tr', HandlerDeliver);
  }
}
