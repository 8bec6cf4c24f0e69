/**
 Modeset permissions (nvidia-drm-drv.c, nvidia-drm-connector.c): a file is granted a connector
 together with a CRTC, and loses both on revoke, disconnect, close or lease revocation.

 CRTCs and connectors are named by their positions in the device's lists; a set of heads stands
 for the source's head bit mask.
 */
module Permissions {
  import opened Base

  datatype Crtc = Crtc(id: int, head: nat, filep: Option<nat>)

  /** A detected encoder: the display behind it, the CRTCs it can use, and the one it uses. */
  datatype Encoder = Encoder(display: nat, possible: set<nat>, crtc: Option<nat>)

  datatype Connector = Connector(id: int, encoder: Option<Encoder>, stateCrtc: Option<nat>,
                                 filep: Option<nat>, crtc: Option<nat>)

  datatype Device = Device(connectors: seq<Connector>, crtcs: seq<Crtc>)

  predicate IsDisplay(c: Connector, dpy: nat) {
    c.encoder.Some? && c.encoder.value.display == dpy
  }

  /** A connector drives the CRTC of its state, or, if its state has none, that of its encoder. */
  predicate Drives(c: Connector, k: nat) {
    c.stateCrtc == Some(k) || (c.stateCrtc.None? && c.encoder.Some? && c.encoder.value.crtc == Some(k))
  }

  /** The heads that a connector drives: at most one. */
  function HeadOf(d: Device, c: Connector): (hs: set<nat>)
    ensures forall h :: h in hs <==> exists k :: 0 <= k < |d.crtcs| && Drives(c, k) && d.crtcs[k].head == h
  {
    if c.stateCrtc.Some? then
      if c.stateCrtc.value < |d.crtcs| then {d.crtcs[c.stateCrtc.value].head} else {}
    else if c.encoder.Some? && c.encoder.value.crtc.Some? then
      if c.encoder.value.crtc.value < |d.crtcs| then {d.crtcs[c.encoder.value.crtc.value].head} else {}
    else {}
  }

  predicate DistinctHeads(d: Device) {
    forall j, k :: 0 <= j < k < |d.crtcs| ==> d.crtcs[j].head != d.crtcs[k].head
  }

  // The pairing

  /** A connector is granted exactly when it names a CRTC, and that CRTC has the same owner. */
  predicate ConnectorOk(d: Device, i: nat)
    requires i < |d.connectors|
  {
    var c := d.connectors[i];
    && (c.filep.Some? <==> c.crtc.Some?)
    && (c.crtc.Some? ==> c.crtc.value < |d.crtcs| && d.crtcs[c.crtc.value].filep == c.filep)
  }

  /** A granted CRTC is named by a connector. */
  predicate CrtcOk(d: Device, k: nat)
    requires k < |d.crtcs|
  {
    d.crtcs[k].filep.Some? ==> exists i :: 0 <= i < |d.connectors| && d.connectors[i].crtc == Some(k)
  }

  /** Granted connectors and granted CRTCs correspond one to one, with equal owners. */
  predicate Paired(d: Device) {
    && (forall i :: 0 <= i < |d.connectors| ==> ConnectorOk(d, i))
    && (forall k :: 0 <= k < |d.crtcs| ==> CrtcOk(d, k))
    && (forall i, j :: 0 <= i < j < |d.connectors| && d.connectors[i].crtc.Some? ==>
          d.connectors[i].crtc != d.connectors[j].crtc)
  }

  // Revoking

  /** nv_drm_connector_revoke_permissions. */
  function RevokeConnector(d: Device, i: nat): (d': Device)
    requires i < |d.connectors|
    ensures |d'.connectors| == |d.connectors| && |d'.crtcs| == |d.crtcs|
  {
    var c := d.connectors[i];
    var cs := if c.crtc.Some? && c.crtc.value < |d.crtcs|
              then d.crtcs[c.crtc.value := d.crtcs[c.crtc.value].(filep := None)] else d.crtcs;
    Device(d.connectors[i := c.(filep := None, crtc := None)], cs)
  }

  /** Revokes, in list order, those of the first `n` connectors that match. */
  function RevokeMatching(d: Device, m: Connector -> bool, n: nat): (d': Device)
    requires n <= |d.connectors|
    ensures |d'.connectors| == |d.connectors| && |d'.crtcs| == |d.crtcs|
  {
    if n == 0 then d
    else
      var d1 := RevokeMatching(d, m, n - 1);
      if m(d1.connectors[n - 1]) then RevokeConnector(d1, n - 1) else d1
  }

  /** Clears the owner of every CRTC that matches. */
  function ClearCrtcs(d: Device, m: Crtc -> bool): (d': Device)
    ensures |d'.crtcs| == |d.crtcs|
  {
    d.(crtcs := seq(|d.crtcs|, k requires 0 <= k < |d.crtcs| =>
                      if m(d.crtcs[k]) then d.crtcs[k].(filep := None) else d.crtcs[k]))
  }

  /** The file's connectors, or only the one for `dpy` when it is not 0. */
  function Owned(f: nat, dpy: nat): Connector -> bool {
    (c: Connector) => c.filep == Some(f) && (dpy == 0 || IsDisplay(c, dpy))
  }

  function OwnedCrtc(f: nat): Crtc -> bool {
    (c: Crtc) => c.filep == Some(f)
  }

  /** nv_drm_revoke_modeset_permission. Disabling connector `failAt` fails and ends the call early. */
  function Revoke(d: Device, f: nat, dpy: nat, failAt: nat): Device {
    if failAt < |d.connectors| && Owned(f, dpy)(d.connectors[failAt])
    then RevokeMatching(d, Owned(f, dpy), failAt)
    else
      var d1 := RevokeMatching(d, Owned(f, dpy), |d.connectors|);
      if dpy == 0 then ClearCrtcs(d1, OwnedCrtc(f)) else d1
  }

  function LeasedConnector(objects: set<int>): Connector -> bool {
    (c: Connector) => c.filep.Some? && c.id in objects
  }

  function LeasedCrtc(objects: set<int>): Crtc -> bool {
    (c: Crtc) => c.filep.Some? && c.id in objects
  }

  /** nv_drm_finish_revoking_objects. */
  function FinishRevoking(d: Device, objects: set<int>): Device {
    ClearCrtcs(RevokeMatching(d, LeasedConnector(objects), |d.connectors|), LeasedCrtc(objects))
  }

  lemma RevokePaired(d: Device, i: nat)
    requires Paired(d) && i < |d.connectors|
    ensures Paired(RevokeConnector(d, i))
  {
    var d' := RevokeConnector(d, i);
    forall j | 0 <= j < |d.connectors| ensures ConnectorOk(d', j) {
      assert ConnectorOk(d, j) && ConnectorOk(d, i);
    }
    forall k | 0 <= k < |d.crtcs| ensures CrtcOk(d', k) {
      assert CrtcOk(d, k);
      if d'.crtcs[k].filep.Some? {
        var j :| 0 <= j < |d.connectors| && d.connectors[j].crtc == Some(k);
        assert ConnectorOk(d, i) && d'.connectors[j].crtc == Some(k);
      }
    }
  }

  /** Revoking in list order keeps the pairing, clears what matches and leaves the rest. */
  lemma {:induction false} RevokeMatchingFacts(d: Device, m: Connector -> bool, n: nat)
    requires Paired(d) && n <= |d.connectors|
    ensures var d' := RevokeMatching(d, m, n);
      && Paired(d')
      && (forall i :: 0 <= i < |d.connectors| ==>
            d'.connectors[i] == if i < n && m(d.connectors[i])
                                then d.connectors[i].(filep := None, crtc := None)
                                else d.connectors[i])
      && (forall k :: 0 <= k < |d.crtcs| ==>
            d'.crtcs[k] == d.crtcs[k] || d'.crtcs[k] == d.crtcs[k].(filep := None))
  {
    if n > 0 {
      RevokeMatchingFacts(d, m, n - 1);
      RevokePaired(RevokeMatching(d, m, n - 1), n - 1);
    }
  }

  lemma RevokeKeepsPairing(d: Device, f: nat, dpy: nat, failAt: nat)
    requires Paired(d)
    ensures Paired(Revoke(d, f, dpy, failAt))
  {
    var n := |d.connectors|;
    RevokeMatchingFacts(d, Owned(f, dpy), if failAt < n then failAt else n);
    RevokeMatchingFacts(d, Owned(f, dpy), n);
    if dpy == 0 {
      NothingOwned(RevokeMatching(d, Owned(f, 0), n), f);
    }
  }

  /** With no connector of `f` left, the pairing leaves no CRTC of `f` either. */
  lemma NothingOwned(d: Device, f: nat)
    requires Paired(d) && forall i :: 0 <= i < |d.connectors| ==> d.connectors[i].filep != Some(f)
    ensures forall k :: 0 <= k < |d.crtcs| ==> d.crtcs[k].filep != Some(f)
    ensures ClearCrtcs(d, OwnedCrtc(f)) == d
  {
    forall k | 0 <= k < |d.crtcs| ensures d.crtcs[k].filep != Some(f) {
      assert CrtcOk(d, k);
      if d.crtcs[k].filep.Some? {
        var i :| 0 <= i < |d.connectors| && d.connectors[i].crtc == Some(k);
        assert ConnectorOk(d, i);
      }
    }
  }

  // Lease revocation

  /** Every granted CRTC among the revoked objects has its connector among them too. */
  predicate LeaseClosed(d: Device, objects: set<int>) {
    forall i :: 0 <= i < |d.connectors| && d.connectors[i].crtc.Some? &&
                d.connectors[i].crtc.value < |d.crtcs| &&
                d.crtcs[d.connectors[i].crtc.value].id in objects
            ==> d.connectors[i].id in objects
  }

  lemma ClosedLeaseClearsNothing(d: Device, objects: set<int>)
    requires Paired(d) && LeaseClosed(d, objects)
    ensures FinishRevoking(d, objects) == RevokeMatching(d, LeasedConnector(objects), |d.connectors|)
  {
    var d1 := RevokeMatching(d, LeasedConnector(objects), |d.connectors|);
    RevokeMatchingFacts(d, LeasedConnector(objects), |d.connectors|);
    forall k | 0 <= k < |d1.crtcs| ensures !LeasedCrtc(objects)(d1.crtcs[k]) {
      assert CrtcOk(d1, k);
      if d1.crtcs[k].filep.Some? {
        var i :| 0 <= i < |d1.connectors| && d1.connectors[i].crtc == Some(k);
        assert ConnectorOk(d1, i) && d1.connectors[i] == d.connectors[i];
      }
    }
  }

  lemma OpenLeaseBreaksPairing(d: Device, objects: set<int>, i: nat)
    requires Paired(d) && i < |d.connectors| && d.connectors[i].crtc.Some?
    requires d.connectors[i].crtc.value < |d.crtcs|
    requires d.crtcs[d.connectors[i].crtc.value].id in objects && d.connectors[i].id !in objects
    ensures !ConnectorOk(FinishRevoking(d, objects), i)
  {
    RevokeMatchingFacts(d, LeasedConnector(objects), |d.connectors|);
    var d1 := RevokeMatching(d, LeasedConnector(objects), |d.connectors|);
    assert ConnectorOk(d, i) && ConnectorOk(d1, i);
  }

  /** Lease revocation keeps the pairing exactly when the revoked objects are closed in this sense. */
  lemma LeaseKeepsPairing(d: Device, objects: set<int>)
    requires Paired(d)
    ensures Paired(FinishRevoking(d, objects)) <==> LeaseClosed(d, objects)
  {
    if LeaseClosed(d, objects) {
      ClosedLeaseClearsNothing(d, objects);
      RevokeMatchingFacts(d, LeasedConnector(objects), |d.connectors|);
    } else {
      var i :| 0 <= i < |d.connectors| && d.connectors[i].crtc.Some? &&
               d.connectors[i].crtc.value < |d.crtcs| &&
               d.crtcs[d.connectors[i].crtc.value].id in objects && d.connectors[i].id !in objects;
      OpenLeaseBreaksPairing(d, objects, i);
    }
  }

  // Granting

  /** A request: the file, the display, and which connectors and CRTCs the file may see. */
  datatype Request = Request(f: nat, dpy: nat, seesConnectors: set<int>, seesCrtcs: set<int>)

  /** The first connector at or after `i` for the display. */
  function FirstDisplay(d: Device, dpy: nat, i: nat): (r: Option<nat>)
    requires i <= |d.connectors|
    ensures r.Some? ==> i <= r.value < |d.connectors| && IsDisplay(d.connectors[r.value], dpy)
    ensures forall j :: i <= j < (if r.Some? then r.value else |d.connectors|) ==> !IsDisplay(d.connectors[j], dpy)
    decreases |d.connectors| - i
  {
    if i == |d.connectors| then None
    else if IsDisplay(d.connectors[i], dpy) then Some(i)
    else FirstDisplay(d, dpy, i + 1)
  }

  /** A CRTC that the file may use and that nobody holds. */
  predicate Usable(d: Device, r: Request, possible: set<nat>, k: nat)
    requires k < |d.crtcs|
  {
    d.crtcs[k].id in r.seesCrtcs && d.crtcs[k].filep.None? && k in possible
  }

  /** The heads of the usable CRTCs among the first `n`. */
  function FreeHeads(d: Device, r: Request, possible: set<nat>, n: nat): (hs: set<nat>)
    requires n <= |d.crtcs|
    ensures forall h :: h in hs <==> exists k :: 0 <= k < n && d.crtcs[k].head == h && Usable(d, r, possible, k)
  {
    if n == 0 then {}
    else
      FreeHeads(d, r, possible, n - 1) +
      if Usable(d, r, possible, n - 1) then {d.crtcs[n - 1].head} else {}
  }

  /** `hs` without the heads that the first `n` connectors drive. */
  function Undriven(d: Device, hs: set<nat>, n: nat): (r: set<nat>)
    requires n <= |d.connectors|
    ensures forall h :: h in r <==> h in hs && forall i :: 0 <= i < n ==> h !in HeadOf(d, d.connectors[i])
  {
    if n == 0 then hs else Undriven(d, hs, n - 1) - HeadOf(d, d.connectors[n - 1])
  }

  /** The heads a grant may use: the target's own if free, otherwise those no connector drives. */
  function Candidates(d: Device, r: Request, t: nat): set<nat>
    requires t < |d.connectors| && d.connectors[t].encoder.Some?
  {
    var free := FreeHeads(d, r, d.connectors[t].encoder.value.possible, |d.crtcs|);
    var own := HeadOf(d, d.connectors[t]);
    if own * free != {} then own else Undriven(d, free, |d.connectors|)
  }

  /** The first CRTC at or after `k` with one of the given heads. */
  function FirstHead(d: Device, hs: set<nat>, k: nat): (r: Option<nat>)
    requires k <= |d.crtcs|
    ensures r.Some? ==> k <= r.value < |d.crtcs| && d.crtcs[r.value].head in hs
    ensures forall j :: k <= j < (if r.Some? then r.value else |d.crtcs|) ==> d.crtcs[j].head !in hs
    decreases |d.crtcs| - k
  {
    if k == |d.crtcs| then None
    else if d.crtcs[k].head in hs then Some(k)
    else FirstHead(d, hs, k + 1)
  }

  function SetGrant(d: Device, t: nat, k: nat, f: nat): Device
    requires t < |d.connectors| && k < |d.crtcs|
  {
    Device(d.connectors[t := d.connectors[t].(filep := Some(f), crtc := Some(k))],
           d.crtcs[k := d.crtcs[k].(filep := Some(f))])
  }

  /** The connector and CRTC that a request would be granted, before NVKMS is asked. */
  function Choice(d: Device, r: Request): (c: Option<(nat, nat)>)
    ensures c.Some? ==> c.value.0 < |d.connectors| && c.value.1 < |d.crtcs|
  {
    var t := FirstDisplay(d, r.dpy, 0);
    if t.None? || d.connectors[t.value].id !in r.seesConnectors || d.connectors[t.value].filep.Some?
    then None
    else
      var k := FirstHead(d, Candidates(d, r, t.value), 0);
      if k.None? then None else Some((t.value, k.value))
  }

  /** nv_drm_grant_modeset_permission. */
  function Grant(d: Device, r: Request, kmsGrants: bool): Device {
    var c := Choice(d, r);
    if c.None? || !kmsGrants then d else SetGrant(d, c.value.0, c.value.1, r.f)
  }

  /** The chosen CRTC is visible, allowed and free, and its head is the target's own or is driven by
      no connector. */
  lemma ChoiceIsFree(d: Device, r: Request)
    requires DistinctHeads(d) && Choice(d, r).Some?
    ensures var (t, k) := Choice(d, r).value;
      && IsDisplay(d.connectors[t], r.dpy) && d.connectors[t].id in r.seesConnectors
      && d.connectors[t].filep.None?
      && d.crtcs[k].id in r.seesCrtcs && d.crtcs[k].filep.None? && k in d.connectors[t].encoder.value.possible
      && (d.crtcs[k].head in HeadOf(d, d.connectors[t])
          || forall i :: 0 <= i < |d.connectors| ==> d.crtcs[k].head !in HeadOf(d, d.connectors[i]))
  {
    var (t, k) := Choice(d, r).value;
    var possible := d.connectors[t].encoder.value.possible;
    var free := FreeHeads(d, r, possible, |d.crtcs|);
    var own := HeadOf(d, d.connectors[t]);
    assert d.crtcs[k].head in free;
    var j :| 0 <= j < |d.crtcs| && d.crtcs[j].head == d.crtcs[k].head && Usable(d, r, possible, j);
  }

  /** The file may see the CRTC, nobody holds it, and the target's encoder can use it. */
  predicate Available(d: Device, r: Request, t: nat, k: nat)
    requires t < |d.connectors| && d.connectors[t].encoder.Some? && k < |d.crtcs|
  {
    d.crtcs[k].id in r.seesCrtcs && d.crtcs[k].filep.None? && k in d.connectors[t].encoder.value.possible
  }

  /** An available CRTC whose head the target already drives. */
  predicate OwnHead(d: Device, r: Request, t: nat, k: nat)
    requires t < |d.connectors| && d.connectors[t].encoder.Some? && k < |d.crtcs|
  {
    Available(d, r, t, k) && d.crtcs[k].head in HeadOf(d, d.connectors[t])
  }

  /** An available CRTC whose head no connector drives. */
  predicate IdleHead(d: Device, r: Request, t: nat, k: nat)
    requires t < |d.connectors| && d.connectors[t].encoder.Some? && k < |d.crtcs|
  {
    && Available(d, r, t, k)
    && forall i :: 0 <= i < |d.connectors| ==> d.crtcs[k].head !in HeadOf(d, d.connectors[i])
  }

  /** The connector that a request is about: the first one for its display, if the file may see it
      and nobody holds it. */
  predicate Target(d: Device, r: Request, t: nat) {
    && t < |d.connectors| && IsDisplay(d.connectors[t], r.dpy)
    && (forall j :: 0 <= j < t ==> !IsDisplay(d.connectors[j], r.dpy))
    && d.connectors[t].id in r.seesConnectors && d.connectors[t].filep.None?
  }

  lemma OwnHeadChosen(d: Device, r: Request, t: nat, k: nat)
    requires DistinctHeads(d) && Target(d, r, t) && k < |d.crtcs| && OwnHead(d, r, t, k)
    ensures Choice(d, r) == Some((t, k))
  {
    var possible := d.connectors[t].encoder.value.possible;
    var free := FreeHeads(d, r, possible, |d.crtcs|);
    var own := HeadOf(d, d.connectors[t]);
    assert d.crtcs[k].head in own * free;
    assert Candidates(d, r, t) == own;
  }

  lemma NoOwnHead(d: Device, r: Request, t: nat)
    requires Target(d, r, t) && forall k :: 0 <= k < |d.crtcs| ==> !OwnHead(d, r, t, k)
    ensures Candidates(d, r, t)
         == Undriven(d, FreeHeads(d, r, d.connectors[t].encoder.value.possible, |d.crtcs|), |d.connectors|)
  {
    var possible := d.connectors[t].encoder.value.possible;
    var free := FreeHeads(d, r, possible, |d.crtcs|);
    forall h | h in HeadOf(d, d.connectors[t]) ensures h !in free {
      if h in free {
        var k :| 0 <= k < |d.crtcs| && d.crtcs[k].head == h && Usable(d, r, possible, k);
        assert OwnHead(d, r, t, k);
      }
    }
  }

  /** Without an own head the candidates are exactly the heads of the idle CRTCs. */
  lemma IdleCandidates(d: Device, r: Request, t: nat, k: nat)
    requires DistinctHeads(d) && Target(d, r, t) && k < |d.crtcs|
    requires forall j :: 0 <= j < |d.crtcs| ==> !OwnHead(d, r, t, j)
    ensures d.crtcs[k].head in Candidates(d, r, t) <==> IdleHead(d, r, t, k)
  {
    NoOwnHead(d, r, t);
    var possible := d.connectors[t].encoder.value.possible;
    var free := FreeHeads(d, r, possible, |d.crtcs|);
    if d.crtcs[k].head in free {
      var j :| 0 <= j < |d.crtcs| && d.crtcs[j].head == d.crtcs[k].head && Usable(d, r, possible, j);
    }
  }

  /** For a connector that can be granted: a CRTC whose head it drives already is chosen if one is
      usable; otherwise the first usable one whose head no connector drives; otherwise none. */
  lemma ChoiceExact(d: Device, r: Request, t: nat)
    requires DistinctHeads(d) && Target(d, r, t)
    ensures var c := Choice(d, r);
      && (c.Some? <==> exists k :: 0 <= k < |d.crtcs| && (OwnHead(d, r, t, k) || IdleHead(d, r, t, k)))
      && (c.Some? ==> c.value.0 == t)
      && (forall k :: 0 <= k < |d.crtcs| && OwnHead(d, r, t, k) ==> c == Some((t, k)))
      && ((forall k :: 0 <= k < |d.crtcs| ==> !OwnHead(d, r, t, k)) && c.Some? ==>
            IdleHead(d, r, t, c.value.1) && forall j :: 0 <= j < c.value.1 ==> !IdleHead(d, r, t, j))
  {
    if k :| 0 <= k < |d.crtcs| && OwnHead(d, r, t, k) {
      forall j | 0 <= j < |d.crtcs| && OwnHead(d, r, t, j) ensures Choice(d, r) == Some((t, j)) {
        OwnHeadChosen(d, r, t, j);
      }
    } else {
      forall k | 0 <= k < |d.crtcs| ensures d.crtcs[k].head in Candidates(d, r, t) <==> IdleHead(d, r, t, k) {
        IdleCandidates(d, r, t, k);
      }
    }
  }

  /** A request has no choice at all exactly if no connector can be granted for it, or the one that can
      has neither an own nor an idle head. */
  lemma ChoiceExists(d: Device, r: Request)
    requires DistinctHeads(d)
    ensures Choice(d, r).Some? <==>
      exists t, k :: Target(d, r, t) && 0 <= k < |d.crtcs| && (OwnHead(d, r, t, k) || IdleHead(d, r, t, k))
  {
    var t := FirstDisplay(d, r.dpy, 0);
    if t.Some? && Target(d, r, t.value) {
      ChoiceExact(d, r, t.value);
      assert forall u :: Target(d, r, u) ==> u == t.value;
    } else {
      assert forall u :: !Target(d, r, u);
    }
  }

  lemma GrantKeepsPairing(d: Device, r: Request, kmsGrants: bool)
    requires Paired(d) && DistinctHeads(d)
    ensures Paired(Grant(d, r, kmsGrants)) && DistinctHeads(Grant(d, r, kmsGrants))
  {
    if Choice(d, r).Some? && kmsGrants {
      ChoiceIsFree(d, r);
      var (t, k) := Choice(d, r).value;
      var d' := SetGrant(d, t, k, r.f);
      assert ConnectorOk(d, t);
      forall i | 0 <= i < |d.connectors| ensures ConnectorOk(d', i) && d.connectors[i].crtc != Some(k) {
        assert ConnectorOk(d, i);
      }
      forall j | 0 <= j < |d.crtcs| ensures CrtcOk(d', j) {
        assert CrtcOk(d, j);
        if j == k {
          assert d'.connectors[t].crtc == Some(k);
        } else if d.crtcs[j].filep.Some? {
          var i :| 0 <= i < |d.connectors| && d.connectors[i].crtc == Some(j);
          assert d'.connectors[i].crtc == Some(j);
        }
      }
    }
  }

  // Runs

  /** What can happen to the device. `Probe` stands for everything that changes what a connector
      detects or drives; a connector found disconnected loses its permission. */
  datatype Op =
    | GrantOp(r: Request, kmsGrants: bool)
    | RevokeOp(f: nat, dpy: nat, failAt: nat)
    | Probe(i: nat, encoder: Option<Encoder>, stateCrtc: Option<nat>, connected: bool)
    | LeaseOp(objects: set<int>)

  function ProbeConnector(d: Device, op: Op): Device
    requires op.Probe?
  {
    if op.i >= |d.connectors| then d
    else
      var c := d.connectors[op.i].(encoder := op.encoder, stateCrtc := op.stateCrtc);
      var d1 := d.(connectors := d.connectors[op.i := c]);
      if !op.connected && c.filep.Some? then RevokeConnector(d1, op.i) else d1
  }

  function Apply(d: Device, op: Op): Device {
    match op
    case GrantOp(r, kmsGrants) => Grant(d, r, kmsGrants)
    case RevokeOp(f, dpy, failAt) => Revoke(d, f, dpy, failAt)
    case Probe(_, _, _, _) => ProbeConnector(d, op)
    case LeaseOp(objects) => FinishRevoking(d, objects)
  }

  function Exec(d: Device, ops: seq<Op>): Device {
    if ops == [] then d else Apply(Exec(d, ops[..|ops| - 1]), ops[|ops| - 1])
  }

  /** A device as initialised: nothing granted, heads distinct. */
  predicate Fresh(d: Device) {
    && DistinctHeads(d)
    && (forall i :: 0 <= i < |d.connectors| ==> d.connectors[i].filep.None? && d.connectors[i].crtc.None?)
    && (forall k :: 0 <= k < |d.crtcs| ==> d.crtcs[k].filep.None?)
  }

  /** Every lease revocation in the run was closed when it happened. */
  predicate LeasesClosed(d: Device, ops: seq<Op>) {
    forall n :: 0 <= n < |ops| && ops[n].LeaseOp? ==> LeaseClosed(Exec(d, ops[..n]), ops[n].objects)
  }

  lemma ProbeKeepsPairing(d: Device, op: Op)
    requires op.Probe? && Paired(d)
    ensures Paired(ProbeConnector(d, op))
  {
    if op.i < |d.connectors| {
      var c := d.connectors[op.i].(encoder := op.encoder, stateCrtc := op.stateCrtc);
      var d1 := d.(connectors := d.connectors[op.i := c]);
      assert Paired(d1) by {
        forall i | 0 <= i < |d.connectors| ensures ConnectorOk(d1, i) {
          assert ConnectorOk(d, i);
        }
        forall k | 0 <= k < |d.crtcs| ensures CrtcOk(d1, k) {
          assert CrtcOk(d, k);
          if d.crtcs[k].filep.Some? {
            var i :| 0 <= i < |d.connectors| && d.connectors[i].crtc == Some(k);
            assert d1.connectors[i].crtc == Some(k);
          }
        }
      }
      RevokePaired(d1, op.i);
    }
  }

  lemma {:induction false} RevokeKeepsHeads(d: Device, m: Connector -> bool, n: nat, k: nat)
    requires n <= |d.connectors| && k < |d.crtcs|
    ensures RevokeMatching(d, m, n).crtcs[k].head == d.crtcs[k].head
  {
    if n > 0 {
      RevokeKeepsHeads(d, m, n - 1, k);
    }
  }

  lemma SameHead(d: Device, op: Op, k: nat)
    requires k < |d.crtcs|
    ensures |Apply(d, op).crtcs| == |d.crtcs| && Apply(d, op).crtcs[k].head == d.crtcs[k].head
  {
    match op
    case GrantOp(r, kmsGrants) =>
    case RevokeOp(f, dpy, failAt) =>
      RevokeKeepsHeads(d, Owned(f, dpy), if failAt < |d.connectors| then failAt else |d.connectors|, k);
      RevokeKeepsHeads(d, Owned(f, dpy), |d.connectors|, k);
    case Probe(_, _, _, _) =>
    case LeaseOp(objects) => RevokeKeepsHeads(d, LeasedConnector(objects), |d.connectors|, k);
  }

  lemma SameHeads(d: Device, op: Op)
    requires DistinctHeads(d)
    ensures DistinctHeads(Apply(d, op))
  {
    SameHeadCount(d, op);
    forall k | 0 <= k < |d.crtcs| ensures Apply(d, op).crtcs[k].head == d.crtcs[k].head {
      SameHead(d, op, k);
    }
  }

  lemma SameHeadCount(d: Device, op: Op)
    ensures |Apply(d, op).crtcs| == |d.crtcs|
  {}

  /** Over every run of grants, revokes, probes and closed lease revocations, granted connectors and
      granted CRTCs correspond one to one with equal owners. */
  lemma {:induction false} PairingHolds(d: Device, ops: seq<Op>)
    requires Fresh(d) && LeasesClosed(d, ops)
    ensures Paired(Exec(d, ops)) && DistinctHeads(Exec(d, ops))
  {
    if ops != [] {
      var n := |ops| - 1;
      assert forall m :: 0 <= m < n ==> ops[..n][..m] == ops[..m];
      PairingHolds(d, ops[..n]);
      var d1 := Exec(d, ops[..n]);
      SameHeads(d1, ops[n]);
      match ops[n]
      case GrantOp(r, kmsGrants) => GrantKeepsPairing(d1, r, kmsGrants);
      case RevokeOp(f, dpy, failAt) => RevokeKeepsPairing(d1, f, dpy, failAt);
      case Probe(_, _, _, _) => ProbeKeepsPairing(d1, ops[n]);
      case LeaseOp(objects) => LeaseKeepsPairing(d1, objects);
    }
  }

  /** Some of the first `n` connectors matches and names CRTC `k`. */
  predicate Names(d: Device, m: Connector -> bool, n: nat, k: nat)
    requires n <= |d.connectors|
  {
    exists i :: 0 <= i < n && m(d.connectors[i]) && d.connectors[i].crtc == Some(k)
  }

  /** What a revoking loop does to any device: it clears the matching connectors and the CRTCs that
      these name, whoever owns them. */
  lemma {:induction false} RevokeMatchingExact(d: Device, m: Connector -> bool, n: nat)
    requires n <= |d.connectors|
    ensures var d' := RevokeMatching(d, m, n);
      && (forall i :: 0 <= i < |d.connectors| ==>
            d'.connectors[i] == if i < n && m(d.connectors[i])
                                then d.connectors[i].(filep := None, crtc := None)
                                else d.connectors[i])
      && (forall k :: 0 <= k < |d.crtcs| ==>
            d'.crtcs[k] == if Names(d, m, n, k) then d.crtcs[k].(filep := None) else d.crtcs[k])
  {
    if n > 0 {
      RevokeMatchingExact(d, m, n - 1);
      assert forall k :: 0 <= k < |d.crtcs| ==>
        (Names(d, m, n, k) <==>
           Names(d, m, n - 1, k) || (m(d.connectors[n - 1]) && d.connectors[n - 1].crtc == Some(k)));
    }
  }

  /** A close that runs to its end leaves nothing that names the file, on any device, and takes no
      connector from another file. */
  lemma CloseLeavesNothing(d: Device, f: nat, failAt: nat)
    requires failAt >= |d.connectors|
    ensures var d' := Revoke(d, f, 0, failAt);
      && |d'.connectors| == |d.connectors| && |d'.crtcs| == |d.crtcs|
      && (forall i :: 0 <= i < |d'.connectors| ==> d'.connectors[i].filep != Some(f))
      && (forall k :: 0 <= k < |d'.crtcs| ==> d'.crtcs[k].filep != Some(f))
      && (forall i :: 0 <= i < |d.connectors| && d.connectors[i].filep != Some(f) ==>
            d'.connectors[i] == d.connectors[i])
  {
    RevokeMatchingExact(d, Owned(f, 0), |d.connectors|);
  }

  /** A revoke that runs to its end clears the file's connectors, or only those for the given display,
      and leaves every other connector alone. */
  lemma RevokeExact(d: Device, f: nat, dpy: nat, failAt: nat, i: nat)
    requires failAt >= |d.connectors| && i < |d.connectors|
    ensures var d' := Revoke(d, f, dpy, failAt); var c := d.connectors[i];
      && |d'.connectors| == |d.connectors|
      && d'.connectors[i] ==
           if c.filep == Some(f) && (dpy == 0 || (c.encoder.Some? && c.encoder.value.display == dpy))
           then c.(filep := None, crtc := None) else c
  {
    RevokeMatchingExact(d, Owned(f, dpy), |d.connectors|);
  }

  /** A lease revocation clears exactly the granted connectors and the granted CRTCs among its objects,
      and the CRTCs that these connectors name. */
  lemma LeaseExact(d: Device, objects: set<int>, i: nat, k: nat)
    requires i < |d.connectors| && k < |d.crtcs|
    ensures var d' := FinishRevoking(d, objects); var c := d.connectors[i];
      && |d'.connectors| == |d.connectors| && |d'.crtcs| == |d.crtcs|
      && d'.connectors[i] ==
           (if c.filep.Some? && c.id in objects then c.(filep := None, crtc := None) else c)
      && d'.crtcs[k] ==
           (if d.crtcs[k].id in objects || Names(d, LeasedConnector(objects), |d.connectors|, k)
            then d.crtcs[k].(filep := None) else d.crtcs[k])
  {
    RevokeMatchingExact(d, LeasedConnector(objects), |d.connectors|);
  }

  /** A granted request gives the file exactly the chosen connector and CRTC; any other changes
      nothing. */
  lemma GrantGives(d: Device, r: Request, kmsGrants: bool)
    ensures var d' := Grant(d, r, kmsGrants); var c := Choice(d, r);
      if c.Some? && kmsGrants then
        var (t, k) := c.value;
        && |d'.connectors| == |d.connectors| && |d'.crtcs| == |d.crtcs|
        && d'.connectors[t].filep == Some(r.f) && d'.connectors[t].crtc == Some(k) && d'.crtcs[k].filep == Some(r.f)
        && (forall i :: 0 <= i < |d.connectors| && i != t ==> d'.connectors[i] == d.connectors[i])
        && (forall j :: 0 <= j < |d.crtcs| && j != k ==> d'.crtcs[j] == d.crtcs[j])
      else d' == d
  {}

  /** Detection that finds a connector disconnected leaves it and the CRTC it named without an owner;
      otherwise detection leaves all permissions alone. */
  lemma ProbeExact(d: Device, op: Op)
    requires op.Probe? && op.i < |d.connectors|
    ensures var d' := ProbeConnector(d, op); var c, c' := d.connectors[op.i], d'.connectors[op.i];
      && |d'.connectors| == |d.connectors| && |d'.crtcs| == |d.crtcs|
      && c'.encoder == op.encoder && c'.stateCrtc == op.stateCrtc
      && (forall i :: 0 <= i < |d.connectors| && i != op.i ==> d'.connectors[i] == d.connectors[i])
      && (if !op.connected && c.filep.Some?
          then c'.filep.None? && c'.crtc.None?
               && (c.crtc.Some? && c.crtc.value < |d.crtcs| ==> d'.crtcs[c.crtc.value].filep.None?)
          else c'.filep == c.filep && c'.crtc == c.crtc && d'.crtcs == d.crtcs)
  {}

  /** No connector of `f` names a CRTC that another file owns. */
  predicate OwnsWhatItNames(d: Device, f: nat) {
    forall i :: 0 <= i < |d.connectors| && d.connectors[i].filep == Some(f) && d.connectors[i].crtc.Some? &&
                d.connectors[i].crtc.value < |d.crtcs| ==>
      var owner := d.crtcs[d.connectors[i].crtc.value].filep;
      owner.None? || owner == Some(f)
  }

  /** A close takes no CRTC from another file if and only if the file's connectors name none. */
  lemma CloseTakesNothing(d: Device, f: nat, failAt: nat)
    requires failAt >= |d.connectors|
    ensures |Revoke(d, f, 0, failAt).crtcs| == |d.crtcs|
    ensures var d' := Revoke(d, f, 0, failAt);
      (forall k :: 0 <= k < |d.crtcs| && d.crtcs[k].filep != Some(f) ==> d'.crtcs[k] == d.crtcs[k])
        <==> OwnsWhatItNames(d, f)
  {
    var n := |d.connectors|;
    RevokeMatchingExact(d, Owned(f, 0), n);
    var d' := Revoke(d, f, 0, failAt);
    if !OwnsWhatItNames(d, f) {
      var i :| 0 <= i < n && d.connectors[i].filep == Some(f) && d.connectors[i].crtc.Some? &&
               d.connectors[i].crtc.value < |d.crtcs| &&
               d.crtcs[d.connectors[i].crtc.value].filep.Some? &&
               d.crtcs[d.connectors[i].crtc.value].filep != Some(f);
      assert Names(d, Owned(f, 0), n, d.connectors[i].crtc.value);
    } else {
      forall k | 0 <= k < |d.crtcs| && d.crtcs[k].filep != Some(f) ensures d'.crtcs[k] == d.crtcs[k] {
        if Names(d, Owned(f, 0), n, k) {
          var i :| 0 <= i < n && Owned(f, 0)(d.connectors[i]) && d.connectors[i].crtc == Some(k);
        }
      }
    }
  }

  /** With the pairing that condition holds of every file. */
  lemma PairedOwnsWhatItNames(d: Device, f: nat)
    requires Paired(d)
    ensures OwnsWhatItNames(d, f)
  {
    forall i | 0 <= i < |d.connectors| && d.connectors[i].filep == Some(f) && d.connectors[i].crtc.Some? &&
               d.connectors[i].crtc.value < |d.crtcs|
      ensures d.crtcs[d.connectors[i].crtc.value].filep == Some(f)
    {
      assert ConnectorOk(d, i);
    }
  }

  // A lease that breaks the pairing

  const DISPLAY_5: Connector := Connector(1, Some(Encoder(5, {0}, None)), None, None, None)
  const DISPLAY_6: Connector := Connector(3, Some(Encoder(6, {0}, None)), None, None, None)
  const TWO_DISPLAYS: Device := Device([DISPLAY_5, DISPLAY_6], [Crtc(2, 0, None)])

  /** File 7 keeps display 5, but the CRTC it was granted with is free again. */
  const SPLIT: Device := Device([DISPLAY_5.(filep := Some(7), crtc := Some(0)), DISPLAY_6], [Crtc(2, 0, None)])

  /** A grant that finds the only head free takes the only CRTC. */
  lemma OnlyHead(d: Device, r: Request, t: nat)
    requires |d.connectors| == 2 && |d.crtcs| == 1 && d.crtcs[0].head == 0 && d.crtcs[0].filep.None?
    requires d.crtcs[0].id in r.seesCrtcs && FirstDisplay(d, r.dpy, 0) == Some(t)
    requires d.connectors[t].id in r.seesConnectors && d.connectors[t].filep.None?
    requires 0 in d.connectors[t].encoder.value.possible
    requires forall i :: 0 <= i < 2 ==> HeadOf(d, d.connectors[i]) == {}
    ensures Choice(d, r) == Some((t, 0))
  {
    assert Usable(d, r, d.connectors[t].encoder.value.possible, 0);
    assert 0 in FreeHeads(d, r, d.connectors[t].encoder.value.possible, 1);
    assert 0 in Candidates(d, r, t);
  }

  /** A lease with the other connector and the granted CRTC, but without the CRTC's own connector. */
  lemma OpenLeaseExample()
    ensures var ops := [GrantOp(Request(7, 5, {1}, {2}), true), LeaseOp({2, 3})];
      Fresh(TWO_DISPLAYS) && Exec(TWO_DISPLAYS, ops) == SPLIT && !Paired(SPLIT)
  {
    var d, r := TWO_DISPLAYS, Request(7, 5, {1}, {2});
    var ops := [GrantOp(r, true), LeaseOp({2, 3})];
    OnlyHead(d, r, 0);
    var d1 := SetGrant(d, 0, 0, 7);
    assert ops[..1] == [GrantOp(r, true)] && ops[..1][..0] == [];
    assert Exec(d, []) == d;
    assert Exec(d, ops[..1]) == d1;
    RevokeMatchingExact(d1, LeasedConnector({2, 3}), 2);
    assert RevokeMatching(d1, LeasedConnector({2, 3}), 2) == d1;
    assert FinishRevoking(d1, {2, 3}) == SPLIT;
    assert !ConnectorOk(SPLIT, 0);
  }

  /** From there file 8 is granted the CRTC with display 6, and closing file 7 takes it away. */
  lemma CloseTakesExample()
    ensures var d1 := Grant(SPLIT, Request(8, 6, {3}, {2}), true); var d2 := Revoke(d1, 7, 0, 2);
      && d1.crtcs == [Crtc(2, 0, Some(8))] && d2.crtcs == [Crtc(2, 0, None)]
      && |d2.connectors| == 2 && d2.connectors[1].filep == Some(8) && d2.connectors[1].crtc == Some(0)
  {
    var r := Request(8, 6, {3}, {2});
    OnlyHead(SPLIT, r, 1);
    var d1 := SetGrant(SPLIT, 1, 0, 8);
    assert Grant(SPLIT, r, true) == d1;
    RevokeMatchingExact(d1, Owned(7, 0), 2);
    assert Owned(7, 0)(d1.connectors[0]);
    assert Names(d1, Owned(7, 0), 2, 0);
  }

  /** The device with the source's loops run in place. */
  class Card {
    var connectors: seq<Connector>
    var crtcs: seq<Crtc>

    function Abs(): Device
      reads this
    {
      Device(connectors, crtcs)
    }

    constructor (d: Device)
      ensures Abs() == d
    {
      connectors, crtcs := d.connectors, d.crtcs;
    }

    /** nv_drm_connector_revoke_permissions. */
    method RevokePermissions(i: nat)
      requires i < |connectors|
      modifies this
      ensures Abs() == RevokeConnector(old(Abs()), i)
    {
      var c := connectors[i];
      if c.crtc.Some? && c.crtc.value < |crtcs| {
        crtcs := crtcs[c.crtc.value := crtcs[c.crtc.value].(filep := None)];
      }
      connectors := connectors[i := c.(filep := None, crtc := None)];
    }

    method ClearOwners(m: Crtc -> bool)
      modifies this
      ensures Abs() == ClearCrtcs(old(Abs()), m)
    {
      for k := 0 to |crtcs|
        invariant connectors == old(connectors) && |crtcs| == |old(crtcs)|
        invariant forall j :: 0 <= j < k ==> crtcs[j] == ClearCrtcs(old(Abs()), m).crtcs[j]
        invariant forall j :: k <= j < |crtcs| ==> crtcs[j] == old(crtcs)[j]
      {
        if m(crtcs[k]) {
          crtcs := crtcs[k := crtcs[k].(filep := None)];
        }
      }
      assert crtcs == ClearCrtcs(old(Abs()), m).crtcs;
    }

    /** nv_drm_revoke_modeset_permission. `failAt` is the connector whose disabling fails. */
    method RevokeModesetPermission(f: nat, dpy: nat, failAt: nat) returns (completed: bool)
      modifies this
      ensures Abs() == Revoke(old(Abs()), f, dpy, failAt)
      ensures completed <==> !(failAt < |old(connectors)| && Owned(f, dpy)(old(connectors)[failAt]))
    {
      for i := 0 to |connectors|
        invariant |connectors| == |old(connectors)|
        invariant Abs() == RevokeMatching(old(Abs()), Owned(f, dpy), i)
        invariant forall j :: i <= j < |connectors| ==> connectors[j] == old(connectors)[j]
        invariant failAt < i ==> !Owned(f, dpy)(old(connectors)[failAt])
      {
        if connectors[i].filep == Some(f) && (dpy == 0 || IsDisplay(connectors[i], dpy)) {
          if i == failAt {
            return false;
          }
          RevokePermissions(i);
        }
      }
      if dpy == 0 {
        ClearOwners(OwnedCrtc(f));
      }
      completed := true;
    }

    /** nv_drm_finish_revoking_objects. */
    method FinishRevokingObjects(objects: set<int>)
      modifies this
      ensures Abs() == FinishRevoking(old(Abs()), objects)
    {
      for i := 0 to |connectors|
        invariant |connectors| == |old(connectors)|
        invariant Abs() == RevokeMatching(old(Abs()), LeasedConnector(objects), i)
      {
        if connectors[i].filep.Some? && connectors[i].id in objects {
          RevokePermissions(i);
        }
      }
      ClearOwners(LeasedCrtc(objects));
    }

    /** The head mask of a grant: first the usable CRTCs, then the target's own head or those that no
        connector drives. */
    method CandidateHeads(r: Request, t: nat) returns (heads: set<nat>)
      requires t < |connectors| && connectors[t].encoder.Some?
      ensures heads == Candidates(Abs(), r, t)
    {
      var possible := connectors[t].encoder.value.possible;
      heads := {};
      for k := 0 to |crtcs|
        invariant heads == FreeHeads(Abs(), r, possible, k)
      {
        if crtcs[k].id in r.seesCrtcs && crtcs[k].filep.None? && k in possible {
          heads := heads + {crtcs[k].head};
        }
      }
      var own := HeadOf(Abs(), connectors[t]);
      if own * heads != {} {
        heads := own;
      } else {
        ghost var free := heads;
        for i := 0 to |connectors|
          invariant heads == Undriven(Abs(), free, i)
        {
          heads := heads - HeadOf(Abs(), connectors[i]);
        }
      }
    }

    /** nv_drm_grant_modeset_permission. */
    method GrantModesetPermission(r: Request, kmsGrants: bool) returns (ok: bool)
      modifies this
      ensures Abs() == Grant(old(Abs()), r, kmsGrants)
      ensures ok <==> Choice(old(Abs()), r).Some? && kmsGrants
    {
      var t: nat := 0;
      while t < |connectors| && !IsDisplay(connectors[t], r.dpy)
        invariant t <= |connectors| && FirstDisplay(Abs(), r.dpy, 0) == FirstDisplay(Abs(), r.dpy, t)
        invariant Abs() == old(Abs())
      {
        t := t + 1;
      }
      if t == |connectors| || connectors[t].id !in r.seesConnectors || connectors[t].filep.Some? {
        return false;
      }
      var heads := CandidateHeads(r, t);
      var k: nat := 0;
      while k < |crtcs| && crtcs[k].head !in heads
        invariant k <= |crtcs| && FirstHead(Abs(), heads, 0) == FirstHead(Abs(), heads, k)
        invariant Abs() == old(Abs())
      {
        k := k + 1;
      }
      if k == |crtcs| || !kmsGrants {
        return false;
      }
      connectors := connectors[t := connectors[t].(filep := Some(r.f), crtc := Some(k))];
      crtcs := crtcs[k := crtcs[k].(filep := Some(r.f))];
      ok := true;
    }
  }
}
