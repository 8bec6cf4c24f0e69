/**
 Prime fences (nvidia-drm-fence.c): fences with 32-bit thresholds, kept in creation order, signalled
 from the front by channel events that re-read the semaphore before each fence. A threshold below
 the last one means that the counter wrapped, and everything older is signalled.
 */
module PrimeFence {
  import opened Base

  datatype Fence = Fence(id: nat, seqno: nat)

  /** What the context lock protects, with the fences created and signalled so far. Signalling a
      fence also drops the list's reference. */
  datatype State = State(pending: seq<Fence>, lastSeqno: nat, created: seq<Fence>, signalled: seq<Fence>)

  /** An event's `read(k)` is what the semaphore holds when the k-th fence is examined. */
  datatype Op = Create(seqno: nat) | ChannelEvent(read: nat -> nat) | Destroy

  const Init: State := State([], 0, [], [])

  function ForceSignal(s: State): State {
    s.(pending := [], signalled := s.signalled + s.pending)
  }

  function CreateFence(s: State, seqno: nat): State {
    var s' := if seqno < s.lastSeqno then ForceSignal(s) else s;
    var f := Fence(|s.created|, seqno);
    s'.(pending := s'.pending + [f], lastSeqno := seqno, created := s.created + [f])
  }

  /** How many fences an event signals: it stops at the first one above the value then read. */
  function Ready(p: seq<Fence>, read: nat -> nat, k: nat): (n: nat)
    ensures n <= |p|
    ensures forall i :: 0 <= i < n ==> p[i].seqno <= read(k + i)
    ensures n < |p| ==> p[n].seqno > read(k + n)
  {
    if p == [] || p[0].seqno > read(k) then 0 else 1 + Ready(p[1..], read, k + 1)
  }

  lemma {:induction false} ReadyIs(p: seq<Fence>, read: nat -> nat, k: nat, n: nat)
    requires n <= |p|
    requires forall i :: 0 <= i < n ==> p[i].seqno <= read(k + i)
    requires n < |p| ==> p[n].seqno > read(k + n)
    ensures Ready(p, read, k) == n
  {
    if n > 0 {
      assert p[0].seqno <= read(k + 0);
      forall i | 0 <= i < n - 1 ensures p[1..][i].seqno <= read(k + 1 + i) {
        assert p[i + 1].seqno <= read(k + (i + 1));
      }
      ReadyIs(p[1..], read, k + 1, n - 1);
    }
  }

  function HandleEvent(s: State, read: nat -> nat): State {
    var n := Ready(s.pending, read, 0);
    s.(pending := s.pending[n..], signalled := s.signalled + s.pending[..n])
  }

  function Apply(s: State, op: Op): State {
    match op
    case Create(seqno) => CreateFence(s, seqno)
    case ChannelEvent(read) => HandleEvent(s, read)
    case Destroy => ForceSignal(s)
  }

  function Exec(ops: seq<Op>): State {
    if ops == [] then Init else Apply(Exec(ops[..|ops| - 1]), ops[|ops| - 1])
  }

  predicate Sorted(p: seq<Fence>) {
    forall i, j :: 0 <= i < j < |p| ==> p[i].seqno <= p[j].seqno
  }

  /** The threshold of the fence created last, 0 before the first. */
  function LastThreshold(created: seq<Fence>): nat {
    if created == [] then 0 else created[|created| - 1].seqno
  }

  predicate Inv(s: State) {
    && Sorted(s.pending)
    && (forall i :: 0 <= i < |s.pending| ==> s.pending[i].seqno <= s.lastSeqno)
    && s.created == s.signalled + s.pending
    && (forall i :: 0 <= i < |s.created| ==> s.created[i].id == i)
    && s.lastSeqno == LastThreshold(s.created)
  }

  lemma CreateInv(s: State, seqno: nat)
    requires Inv(s)
    ensures Inv(CreateFence(s, seqno))
  {
    Assoc(s.signalled, s.pending, [Fence(|s.created|, seqno)]);
  }

  lemma PrefixInv(s: State, n: nat)
    requires Inv(s) && n <= |s.pending|
    ensures Inv(s.(pending := s.pending[n..], signalled := s.signalled + s.pending[..n]))
  {
    Assoc(s.signalled, s.pending[..n], s.pending[n..]);
    assert s.pending == s.pending[..n] + s.pending[n..];
  }

  lemma StepInv(s: State, op: Op)
    requires Inv(s)
    ensures Inv(Apply(s, op))
  {
    if op.Create? {
      CreateInv(s, op.seqno);
    } else if op.ChannelEvent? {
      PrefixInv(s, Ready(s.pending, op.read, 0));
    }
  }

  lemma {:induction false} ExecInv(ops: seq<Op>)
    ensures Inv(Exec(ops))
  {
    if ops != [] {
      ExecInv(ops[..|ops| - 1]);
      StepInv(Exec(ops[..|ops| - 1]), ops[|ops| - 1]);
    }
  }

  /** Over any sequence of operations, with any thresholds and any semaphore reads, the pending list
      is sorted and bounded by the last threshold, and fences are signalled once each, in creation
      order: the fences created are those signalled followed by those pending. */
  lemma SignalledInOrder(ops: seq<Op>)
    ensures var s := Exec(ops);
      && Sorted(s.pending)
      && (forall f :: f in s.pending ==> f.seqno <= s.lastSeqno)
      && s.created == s.signalled + s.pending
      && (forall i, j :: 0 <= i < j < |s.signalled| ==> s.signalled[i].id < s.signalled[j].id)
  {
    ExecInv(ops);
    var s := Exec(ops);
    assert forall i :: 0 <= i < |s.signalled| ==> s.signalled[i] == s.created[i];
  }

  /** An event signals only fences at or below a value it read, and what it leaves is above the last
      value it read. */
  lemma EventIsExact(ops: seq<Op>, read: nat -> nat)
    ensures var s, s' := Exec(ops), Exec(ops + [ChannelEvent(read)]);
      var n := Ready(s.pending, read, 0);
      && s'.signalled == s.signalled + s.pending[..n]
      && (forall i :: 0 <= i < n ==> s.pending[i].seqno <= read(i))
      && (forall f :: f in s'.pending ==> f.seqno > read(n))
  {
    ExecInv(ops);
    var s := Exec(ops);
    var n := Ready(s.pending, read, 0);
    assert forall i :: 0 <= i < n ==> s.pending[i].seqno <= read(0 + i);
    assert (ops + [ChannelEvent(read)])[..|ops|] == ops;
  }

  /** A creation signals every older fence if its threshold is below that of the creation before it,
      and otherwise none; the new fence is pending either way. */
  lemma CreateIsExact(ops: seq<Op>, seqno: nat)
    ensures var s, s' := Exec(ops), Exec(ops + [Create(seqno)]); var f := Fence(|s.created|, seqno);
      && s'.created == s.created + [f]
      && (seqno < LastThreshold(s.created) ==> s'.signalled == s.created && s'.pending == [f])
      && (seqno >= LastThreshold(s.created) ==> s'.signalled == s.signalled && s'.pending == s.pending + [f])
  {
    ExecInv(ops);
    assert (ops + [Create(seqno)])[..|ops|] == ops;
  }

  /** Destroying the context leaves no fence unsignalled. */
  lemma DestroySignalsAll(ops: seq<Op>)
    ensures var s := Exec(ops + [Destroy]); s.pending == [] && s.signalled == s.created
  {
    ExecInv(ops + [Destroy]);
    assert (ops + [Destroy])[..|ops|] == ops;
  }

  /** The context, with its loops run in place. */
  class Context {
    var pending: seq<Fence>
    var lastSeqno: nat
    ghost var created: seq<Fence>
    ghost var signalled: seq<Fence>

    ghost function Abs(): State
      reads this
    {
      State(pending, lastSeqno, created, signalled)
    }

    constructor ()
      ensures Abs() == Init
    {
      pending, lastSeqno, created, signalled := [], 0, [], [];
    }

    /** nv_drm_gem_prime_force_fence_signal. */
    method ForceFenceSignal()
      modifies this
      ensures Abs() == ForceSignal(old(Abs()))
    {
      while pending != []
        invariant signalled + pending == old(signalled) + old(pending)
        invariant lastSeqno == old(lastSeqno) && created == old(created)
        decreases |pending|
      {
        signalled := signalled + [pending[0]];
        pending := pending[1..];
      }
    }

    /** __nv_drm_prime_fence_context_create_fence. */
    method Create(id: nat, seqno: nat) returns (f: Fence)
      requires id == |created| && seqno < TWO_32
      modifies this
      ensures Abs() == CreateFence(old(Abs()), seqno)
    {
      if seqno < lastSeqno {
        ForceFenceSignal();
      }
      f := Fence(id, seqno);
      pending := pending + [f];
      created := created + [f];
      lastSeqno := seqno;
    }

    /** nv_drm_gem_prime_fence_event: the semaphore is read again before each fence. */
    method FenceEvent(read: nat -> nat)
      modifies this
      ensures Abs() == HandleEvent(old(Abs()), read)
    {
      var k: nat := 0;
      while pending != []
        invariant k <= |old(pending)| && pending == old(pending)[k..]
        invariant signalled == old(signalled) + old(pending)[..k]
        invariant lastSeqno == old(lastSeqno) && created == old(created)
        invariant forall i :: 0 <= i < k ==> old(pending)[i].seqno <= read(i)
        decreases |pending|
      {
        if pending[0].seqno > read(k) {
          break;
        }
        signalled := signalled + [pending[0]];
        pending := pending[1..];
        k := k + 1;
      }
      assert forall i :: 0 <= i < k ==> old(pending)[i].seqno <= read(0 + i);
      ReadyIs(old(pending), read, 0, k);
    }
  }
}
