/**
 Reference counts of plane states (nvidia-drm-crtc.c): property blobs and LUT surfaces are named by
 the slots of plane states, and duplicating, changing, rebuilding and destroying states must keep
 each object's count in step with the slots that name it.

 Blobs and surfaces are the objects of one list. A state's slots are listed in the order in which
 the source copies and drops them.
 */
module PlaneRefs {
  import opened Base

  datatype Kind = PropertyBlob(length: nat) | LutSurface

  /** A counted object. `outside` counts the references that are not held by plane states. */
  datatype Object = Object(kind: Kind, count: int, outside: nat, released: nat)

  const SLOTS: nat := 9
  const DEGAMMA_LUT: nat := 5
  const DEGAMMA_SURFACE: nat := 6
  const TMO_LUT: nat := 7
  const TMO_SURFACE: nat := 8

  predicate IsSurfaceSlot(slot: nat) { slot == DEGAMMA_SURFACE || slot == TMO_SURFACE }

  datatype PlaneState = PlaneState(live: bool, slots: seq<Option<nat>>,
                                   degammaChanged: bool, tmoChanged: bool)

  datatype State = State(objects: seq<Object>, states: seq<PlaneState>)

  // Counting

  function GetObject(o: Object): Object { o.(count := o.count + 1) }

  /** Dropping a reference; the object goes with its last one. */
  function PutObject(o: Object): Object {
    o.(count := o.count - 1, released := o.released + if o.count == 1 then 1 else 0)
  }

  function Get(os: seq<Object>, x: Option<nat>): (r: seq<Object>)
    ensures |r| == |os|
  {
    if x.Some? && x.value < |os| then os[x.value := GetObject(os[x.value])] else os
  }

  function Put(os: seq<Object>, x: Option<nat>): (r: seq<Object>)
    ensures |r| == |os|
  {
    if x.Some? && x.value < |os| then os[x.value := PutObject(os[x.value])] else os
  }

  function GetEach(os: seq<Object>, slots: seq<Option<nat>>): (r: seq<Object>)
    ensures |r| == |os|
  {
    if slots == [] then os else Get(GetEach(os, slots[..|slots| - 1]), slots[|slots| - 1])
  }

  function PutEach(os: seq<Object>, slots: seq<Option<nat>>): (r: seq<Object>)
    ensures |r| == |os|
  {
    if slots == [] then os else Put(PutEach(os, slots[..|slots| - 1]), slots[|slots| - 1])
  }

  /** An object is released exactly when its count is zero. */
  predicate Balanced(o: Object) {
    o.count >= 0 && o.released == if o.count == 0 then 1 else 0
  }

  lemma {:induction false} GetEachCounts(os: seq<Object>, slots: seq<Option<nat>>, x: nat)
    requires x < |os|
    ensures GetEach(os, slots)[x] == os[x].(count := os[x].count + Count(slots, Some(x)))
  {
    if slots != [] {
      GetEachCounts(os, slots[..|slots| - 1], x);
    }
  }

  lemma {:induction false} PutEachCounts(os: seq<Object>, slots: seq<Option<nat>>, x: nat)
    requires x < |os| && Balanced(os[x]) && Count(slots, Some(x)) <= os[x].count
    ensures var o := PutEach(os, slots)[x];
      && o == os[x].(count := os[x].count - Count(slots, Some(x)), released := o.released)
      && Balanced(o)
  {
    if slots != [] {
      PutEachCounts(os, slots[..|slots| - 1], x);
    }
  }

  // Operations

  function SetSlot(s: State, i: nat, slot: nat, x: Option<nat>): State
    requires i < |s.states| && slot < |s.states[i].slots|
  {
    s.(states := s.states[i := s.states[i].(slots := s.states[i].slots[slot := x])])
  }

  /** A lookup by id finds a blob that still has references. */
  predicate Findable(s: State, b: nat) {
    b < |s.objects| && s.objects[b].kind.PropertyBlob? && s.objects[b].count > 0
  }

  /** nv_drm_atomic_replace_property_blob_from_id: `id` None is blob id 0. The lookup takes a
      reference of its own, which the end of the call gives back. */
  function ReplaceBlob(s: State, i: nat, slot: nat, id: Option<nat>, expected: nat): (State, bool, bool)
    requires i < |s.states| && slot < |s.states[i].slots|
  {
    if id.Some? && !Findable(s, id.value) then (s, false, false)
    else
      var found := Get(s.objects, id);
      if id.Some? && expected > 0 && s.objects[id.value].kind.length != expected
      then (s.(objects := Put(found, id)), false, false)
      else
        var old_ := s.states[i].slots[slot];
        if old_ != id
        then (SetSlot(s, i, slot, id).(objects := Put(Get(Put(found, old_), id), id)), true, true)
        else (s.(objects := Put(found, id)), true, false)
  }

  /** nv_drm_plane_atomic_set_property for a blob property: a replaced LUT marks its surface stale. */
  function SetBlobProperty(s: State, i: nat, slot: nat, id: Option<nat>, expected: nat): State
    requires i < |s.states| && slot < |s.states[i].slots|
  {
    var (s', ok, replaced) := ReplaceBlob(s, i, slot, id, expected);
    var p := s'.states[i];
    s'.(states := s'.states[i := p.(
          degammaChanged := p.degammaChanged || (replaced && slot == DEGAMMA_LUT),
          tmoChanged := p.tmoChanged || (replaced && slot == TMO_LUT))])
  }

  /** nv_drm_plane_atomic_duplicate_state. */
  function Duplicate(s: State, i: nat): State
    requires i < |s.states|
  {
    s.(objects := GetEach(s.objects, s.states[i].slots),
       states := s.states + [s.states[i].(live := true, degammaChanged := false, tmoChanged := false)])
  }

  /** __nv_drm_plane_atomic_destroy_state. */
  function Destroy(s: State, i: nat): State
    requires i < |s.states|
  {
    s.(objects := PutEach(s.objects, s.states[i].slots),
       states := s.states[i := s.states[i].(live := false)])
  }

  /** Drops the surface of a slot and, if one is wanted, makes a new one; `allocates` is whether that
      succeeds. */
  function RebuildSlot(s: State, i: nat, slot: nat, wanted: bool, allocates: bool): State
    requires i < |s.states| && slot < |s.states[i].slots|
  {
    var dropped := Put(s.objects, s.states[i].slots[slot]);
    if wanted && allocates
    then SetSlot(s, i, slot, Some(|s.objects|)).(objects := dropped + [Object(LutSurface, 1, 0, 0)])
    else SetSlot(s, i, slot, None).(objects := dropped)
  }

  /** The LUT part of plane_req_config_update. `shaped` is whether the transfer function or the
      multiplier differs from its default; it matters only with VSS support. */
  function Rebuild(s: State, i: nat, vss: bool, shaped: bool, allocatesDegamma: bool, allocatesTmo: bool): State
    requires i < |s.states| && |s.states[i].slots| == SLOTS
  {
    var p := s.states[i];
    var wanted := p.slots[DEGAMMA_LUT].Some? || (vss && shaped);
    var s1 := if p.degammaChanged then RebuildSlot(s, i, DEGAMMA_SURFACE, wanted, allocatesDegamma) else s;
    if p.degammaChanged && wanted && !allocatesDegamma then s1   // the update fails here
    else if p.tmoChanged then RebuildSlot(s1, i, TMO_SURFACE, p.slots[TMO_LUT].Some?, allocatesTmo)
    else s1
  }

  datatype Op =
    | CreateBlob(length: nat)
    | OutsideGet(b: nat)
    | OutsidePut(b: nat)
    | NewState
    | MarkDegamma(i: nat)
    | DuplicateOp(i: nat)
    | SetBlobOp(i: nat, slot: nat, id: Option<nat>, expected: nat)
    | RebuildOp(i: nat, vss: bool, shaped: bool, allocatesDegamma: bool, allocatesTmo: bool)
    | DestroyOp(i: nat)

  predicate Allowed(s: State, op: Op) {
    match op
    case CreateBlob(_) => true
    case OutsideGet(b) => Findable(s, b)
    case OutsidePut(b) => b < |s.objects| && s.objects[b].outside > 0
    case NewState => true
    case MarkDegamma(i) => i < |s.states| && s.states[i].live
    case DuplicateOp(i) => i < |s.states| && s.states[i].live
    case SetBlobOp(i, slot, _, _) =>
      i < |s.states| && s.states[i].live && slot < |s.states[i].slots| && !IsSurfaceSlot(slot)
    case RebuildOp(i, _, _, _, _) => i < |s.states| && s.states[i].live && |s.states[i].slots| == SLOTS
    case DestroyOp(i) => i < |s.states| && s.states[i].live
  }

  function Apply(s: State, op: Op): State
    requires Allowed(s, op)
  {
    match op
    case CreateBlob(length) => s.(objects := s.objects + [Object(PropertyBlob(length), 1, 1, 0)])
    case OutsideGet(b) =>
      s.(objects := s.objects[b := GetObject(s.objects[b]).(outside := s.objects[b].outside + 1)])
    case OutsidePut(b) =>
      s.(objects := s.objects[b := PutObject(s.objects[b]).(outside := s.objects[b].outside - 1)])
    case NewState => s.(states := s.states + [PlaneState(true, seq(SLOTS, _ => None), false, false)])
    case MarkDegamma(i) => s.(states := s.states[i := s.states[i].(degammaChanged := true)])
    case DuplicateOp(i) => Duplicate(s, i)
    case SetBlobOp(i, slot, id, expected) => SetBlobProperty(s, i, slot, id, expected)
    case RebuildOp(i, vss, shaped, a, b) => Rebuild(s, i, vss, shaped, a, b)
    case DestroyOp(i) => Destroy(s, i)
  }

  const Init: State := State([], [])

  ghost predicate Next(s: State, s': State) {
    exists op :: Allowed(s, op) && s' == Apply(s, op)
  }

  ghost predicate Run(tr: seq<State>) {
    |tr| > 0 && tr[0] == Init && forall i :: 0 < i < |tr| ==> Next(tr[i - 1], tr[i])
  }

  // What a set and a rebuild leave in the slots

  /** A successful set leaves the slot naming the given blob and every other slot and state alone, and
      marks a LUT's surface stale exactly if that LUT changed; a failed one changes no state. */
  lemma SetBlobSets(s: State, i: nat, slot: nat, id: Option<nat>, expected: nat)
    requires i < |s.states| && slot < |s.states[i].slots| == SLOTS
    ensures var ok := ReplaceBlob(s, i, slot, id, expected).1;
      var s' := SetBlobProperty(s, i, slot, id, expected);
      && |s'.states| == |s.states|
      && (forall j :: 0 <= j < |s.states| && j != i ==> s'.states[j] == s.states[j])
      && s'.states[i].slots == (if ok then s.states[i].slots[slot := id] else s.states[i].slots)
      && (s'.states[i].degammaChanged <==>
            s.states[i].degammaChanged || s'.states[i].slots[DEGAMMA_LUT] != s.states[i].slots[DEGAMMA_LUT])
      && (s'.states[i].tmoChanged <==>
            s.states[i].tmoChanged || s'.states[i].slots[TMO_LUT] != s.states[i].slots[TMO_LUT])
  {}

  /** A set succeeds exactly if it clears the slot, or names a blob that can be found and has the
      expected length, if one is expected; a failed set changes no count. */
  lemma SetBlobSucceeds(s: State, i: nat, slot: nat, id: Option<nat>, expected: nat)
    requires i < |s.states| && slot < |s.states[i].slots| && forall x :: 0 <= x < |s.objects| ==> Balanced(s.objects[x])
    ensures var (s', ok, replaced) := ReplaceBlob(s, i, slot, id, expected);
      && (ok <==> id.None? || (Findable(s, id.value)
                               && (expected == 0 || s.objects[id.value].kind.length == expected)))
      && (replaced <==> ok && s.states[i].slots[slot] != id)
      && (!replaced ==> s' == s)
  {
    var s' := ReplaceBlob(s, i, slot, id, expected).0;
    if !ReplaceBlob(s, i, slot, id, expected).2 {
      assert s'.objects == s.objects;
    }
  }

  /** After an update that succeeds, a stale LUT slot holds a surface made for it just now, or none if
      none is wanted; a slot that is not stale is as before. */
  lemma RebuildMakes(s: State, i: nat, vss: bool, shaped: bool, allocatesDegamma: bool, allocatesTmo: bool)
    requires i < |s.states| && SlotsOk(s, i)
    ensures var p := s.states[i]; var s' := Rebuild(s, i, vss, shaped, allocatesDegamma, allocatesTmo);
      var degamma := p.slots[DEGAMMA_LUT].Some? || (vss && shaped);
      && |s'.states| == |s.states| && |s'.states[i].slots| == SLOTS
      && (forall j :: 0 <= j < SLOTS && !IsSurfaceSlot(j) ==> s'.states[i].slots[j] == p.slots[j])
      && Rebuilt(s, s', i, DEGAMMA_SURFACE, p.degammaChanged, degamma && allocatesDegamma)
      && (p.degammaChanged && degamma && !allocatesDegamma ==> s'.states[i].slots[TMO_SURFACE] == p.slots[TMO_SURFACE])
      && (!(p.degammaChanged && degamma && !allocatesDegamma) ==>
            Rebuilt(s, s', i, TMO_SURFACE, p.tmoChanged, p.slots[TMO_LUT].Some? && allocatesTmo))
  {}

  predicate Rebuilt(s: State, s': State, i: nat, slot: nat, stale: bool, made: bool)
    requires i < |s.states| == |s'.states| && slot < |s.states[i].slots| == |s'.states[i].slots|
  {
    var x := s'.states[i].slots[slot];
    if !stale then x == s.states[i].slots[slot]
    else if !made then x.None?
    else x.Some? && |s.objects| <= x.value < |s'.objects| && s'.objects[x.value] == Object(LutSurface, 1, 0, 0)
  }

  /** A duplicate names what its original names, with nothing stale, and leaves the original alone. */
  lemma DuplicateNames(s: State, i: nat)
    requires i < |s.states|
    ensures var s' := Duplicate(s, i); var n := |s.states|;
      && |s'.states| == n + 1 && s'.states[..n] == s.states
      && s'.states[n].live && s'.states[n].slots == s.states[i].slots
      && !s'.states[n].degammaChanged && !s'.states[n].tmoChanged
  {}

  /** Destroying ends the state, leaves the others alone, and gives back one reference per slot. */
  lemma DestroyEnds(s: State, i: nat, x: nat)
    requires i < |s.states| && x < |s.objects|
    ensures var s' := Destroy(s, i);
      && |s'.states| == |s.states| && !s'.states[i].live && |s'.objects| == |s.objects|
      && (forall j :: 0 <= j < |s.states| && j != i ==> s'.states[j] == s.states[j])
      && s'.objects[x].count == s.objects[x].count - Count(s.states[i].slots, Some(x))
  {
    PutEachCount(s.objects, s.states[i].slots, x);
  }

  lemma {:induction false} PutEachCount(os: seq<Object>, slots: seq<Option<nat>>, x: nat)
    requires x < |os|
    ensures PutEach(os, slots)[x].count == os[x].count - Count(slots, Some(x))
  {
    if slots != [] {
      PutEachCount(os, slots[..|slots| - 1], x);
    }
  }

  // Invariant

  function Naming(x: nat): PlaneState -> nat {
    (p: PlaneState) => if p.live then Count(p.slots, Some(x)) else 0
  }

  /** How many slots of live states name object `x`. */
  function Named(ps: seq<PlaneState>, x: nat): nat {
    SumOf(ps, Naming(x))
  }

  predicate ObjectOk(s: State, x: nat)
    requires x < |s.objects|
  {
    Balanced(s.objects[x]) && s.objects[x].count == s.objects[x].outside + Named(s.states, x)
  }

  /** Slots name existing objects, surfaces in the surface slots and blobs in the others. */
  predicate SlotsOk(s: State, i: nat)
    requires i < |s.states|
  {
    && |s.states[i].slots| == SLOTS
    && forall j :: 0 <= j < SLOTS && s.states[i].slots[j].Some? ==>
         var x := s.states[i].slots[j].value;
         x < |s.objects| && (s.objects[x].kind.LutSurface? <==> IsSurfaceSlot(j))
  }

  predicate NoOutside(s: State) {
    forall x :: 0 <= x < |s.objects| && s.objects[x].kind.LutSurface? ==> s.objects[x].outside == 0
  }

  predicate AllSlotsOk(s: State) {
    forall i :: 0 <= i < |s.states| ==> SlotsOk(s, i)
  }

  predicate AllObjectsOk(s: State) {
    forall x :: 0 <= x < |s.objects| ==> ObjectOk(s, x)
  }

  ghost predicate Inv(s: State) {
    AllSlotsOk(s) && AllObjectsOk(s) && NoOutside(s)
  }

  lemma {:induction false} EachKind(os: seq<Object>, slots: seq<Option<nat>>, x: nat)
    requires x < |os|
    ensures GetEach(os, slots)[x].kind == os[x].kind && GetEach(os, slots)[x].outside == os[x].outside
    ensures PutEach(os, slots)[x].kind == os[x].kind && PutEach(os, slots)[x].outside == os[x].outside
  {
    if slots != [] {
      EachKind(os, slots[..|slots| - 1], x);
    }
  }

  /** Changing one slot changes how often each object is named by that much. */
  lemma {:induction false} CountSlot(slots: seq<Option<nat>>, j: nat, y: Option<nat>, x: nat)
    requires j < |slots|
    ensures Count(slots[j := y], Some(x)) + (if slots[j] == Some(x) then 1 else 0)
         == Count(slots, Some(x)) + (if y == Some(x) then 1 else 0)
    ensures slots[j] == Some(x) ==> Count(slots, Some(x)) > 0
  {
    var n := |slots| - 1;
    if j == n {
      assert slots[j := y][..n] == slots[..n];
    } else {
      assert slots[j := y][..n] == slots[..n][j := y];
      CountSlot(slots[..n], j, y, x);
    }
  }

  lemma NamedSlot(s: State, i: nat, slot: nat, y: Option<nat>, x: nat)
    requires i < |s.states| && s.states[i].live && slot < |s.states[i].slots|
    ensures var s' := SetSlot(s, i, slot, y);
      Named(s'.states, x) + (if s.states[i].slots[slot] == Some(x) then 1 else 0)
        == Named(s.states, x) + (if y == Some(x) then 1 else 0)
    ensures s.states[i].slots[slot] == Some(x) ==> Named(s.states, x) > 0
  {
    CountSlot(s.states[i].slots, slot, y, x);
    SumUpdate(s.states, i, SetSlot(s, i, slot, y).states[i], Naming(x));
  }

  lemma ReplaceObjectOk(s: State, i: nat, slot: nat, id: Option<nat>, expected: nat, x: nat)
    requires Inv(s) && i < |s.states| && s.states[i].live && slot < |s.states[i].slots| && x < |s.objects|
    ensures |ReplaceBlob(s, i, slot, id, expected).0.objects| == |s.objects|
    ensures ObjectOk(ReplaceBlob(s, i, slot, id, expected).0, x)
  {
    assert ObjectOk(s, x);
    NamedSlot(s, i, slot, id, x);
  }

  /** Marking surfaces stale names nothing. */
  lemma FlagsKeepObject(s: State, i: nat, p: PlaneState, x: nat)
    requires i < |s.states| && x < |s.objects| && ObjectOk(s, x)
    requires p.live == s.states[i].live && p.slots == s.states[i].slots
    ensures ObjectOk(s.(states := s.states[i := p]), x)
  {
    SumUpdate(s.states, i, p, Naming(x));
  }

  lemma SetBlobObjectOk(s: State, i: nat, slot: nat, id: Option<nat>, expected: nat, x: nat)
    requires Inv(s) && i < |s.states| && s.states[i].live && slot < |s.states[i].slots| && x < |s.objects|
    ensures ObjectOk(SetBlobProperty(s, i, slot, id, expected), x)
  {
    ReplaceObjectOk(s, i, slot, id, expected, x);
    var s' := ReplaceBlob(s, i, slot, id, expected).0;
    FlagsKeepObject(s', i, SetBlobProperty(s, i, slot, id, expected).states[i], x);
  }

  lemma DuplicateObjectOk(s: State, i: nat, x: nat)
    requires i < |s.states| && s.states[i].live && x < |s.objects| && ObjectOk(s, x)
    ensures ObjectOk(Duplicate(s, i), x)
  {
    GetEachCounts(s.objects, s.states[i].slots, x);
    SumAppend(s.states, Duplicate(s, i).states[|s.states|], Naming(x));
    SumUpdate(s.states, i, s.states[i], Naming(x));
  }

  lemma DestroyObjectOk(s: State, i: nat, x: nat)
    requires i < |s.states| && s.states[i].live && x < |s.objects| && ObjectOk(s, x)
    ensures ObjectOk(Destroy(s, i), x)
  {
    SumUpdate(s.states, i, Destroy(s, i).states[i], Naming(x));
    PutEachCounts(s.objects, s.states[i].slots, x);
    EachKind(s.objects, s.states[i].slots, x);
  }

  /** A surface just made is named by the one slot it was made for. */
  lemma NewObjectUnnamed(s: State)
    requires AllSlotsOk(s)
    ensures Named(s.states, |s.objects|) == 0
  {
    forall i | 0 <= i < |s.states| ensures Naming(|s.objects|)(s.states[i]) == 0 {
      assert SlotsOk(s, i);
      CountAbsent(s.states[i].slots, Some(|s.objects|));
    }
    SumZero(s.states, Naming(|s.objects|));
  }

  lemma RebuildSlotObjectOk(s: State, i: nat, slot: nat, wanted: bool, allocates: bool, x: nat)
    requires AllSlotsOk(s) && AllObjectsOk(s)
    requires i < |s.states| && s.states[i].live && slot < |s.states[i].slots|
    requires x < |RebuildSlot(s, i, slot, wanted, allocates).objects|
    ensures ObjectOk(RebuildSlot(s, i, slot, wanted, allocates), x)
  {
    NamedSlot(s, i, slot, if wanted && allocates then Some(|s.objects|) else None, x);
    if x < |s.objects| {
      assert ObjectOk(s, x);
    } else {
      NewObjectUnnamed(s);
    }
  }

  lemma RebuildSlotSlotsOk(s: State, i: nat, slot: nat, wanted: bool, allocates: bool, j: nat)
    requires AllSlotsOk(s) && i < |s.states| && IsSurfaceSlot(slot) && j < |s.states|
    ensures |s.states[i].slots| == SLOTS
    ensures SlotsOk(RebuildSlot(s, i, slot, wanted, allocates), j)
  {
    assert SlotsOk(s, i) && SlotsOk(s, j);
  }

  lemma RebuildSlotInv(s: State, i: nat, slot: nat, wanted: bool, allocates: bool)
    requires Inv(s) && i < |s.states| && s.states[i].live && IsSurfaceSlot(slot)
    ensures |s.states[i].slots| == SLOTS
    ensures Inv(RebuildSlot(s, i, slot, wanted, allocates))
  {
    assert SlotsOk(s, i);
    var s' := RebuildSlot(s, i, slot, wanted, allocates);
    forall x | 0 <= x < |s'.objects| ensures ObjectOk(s', x) {
      RebuildSlotObjectOk(s, i, slot, wanted, allocates, x);
    }
    forall j | 0 <= j < |s'.states| ensures SlotsOk(s', j) {
      RebuildSlotSlotsOk(s, i, slot, wanted, allocates, j);
    }
  }

  lemma RebuildInv(s: State, op: Op)
    requires op.RebuildOp? && Inv(s) && Allowed(s, op)
    ensures Inv(Apply(s, op))
  {
    var p := s.states[op.i];
    var wanted := p.slots[DEGAMMA_LUT].Some? || (op.vss && op.shaped);
    RebuildSlotInv(s, op.i, DEGAMMA_SURFACE, wanted, op.allocatesDegamma);
    var s1 := if p.degammaChanged then RebuildSlot(s, op.i, DEGAMMA_SURFACE, wanted, op.allocatesDegamma) else s;
    RebuildSlotInv(s1, op.i, TMO_SURFACE, p.slots[TMO_LUT].Some?, op.allocatesTmo);
  }

  lemma ObjectStep(s: State, op: Op, x: nat)
    requires Inv(s) && Allowed(s, op) && !op.RebuildOp? && x < |Apply(s, op).objects|
    ensures ObjectOk(Apply(s, op), x)
  {
    assert x < |s.objects| ==> ObjectOk(s, x);
    match op
    case CreateBlob(_) => NewObjectUnnamed(s);
    case OutsideGet(b) =>
    case OutsidePut(b) => assert ObjectOk(s, b);
    case NewState =>
      CountAbsent(Apply(s, op).states[|s.states|].slots, Some(x));
      SumAppend(s.states, Apply(s, op).states[|s.states|], Naming(x));
    case MarkDegamma(i) => FlagsKeepObject(s, i, Apply(s, op).states[i], x);
    case DuplicateOp(i) => DuplicateObjectOk(s, i, x);
    case SetBlobOp(i, slot, id, expected) => SetBlobObjectOk(s, i, slot, id, expected, x);
    case DestroyOp(i) => DestroyObjectOk(s, i, x);
  }

  lemma KindStep(s: State, op: Op, x: nat)
    requires Inv(s) && Allowed(s, op) && !op.RebuildOp? && x < |s.objects|
    ensures |s.objects| <= |Apply(s, op).objects|
    ensures Apply(s, op).objects[x].kind == s.objects[x].kind
    ensures s.objects[x].kind.LutSurface? ==> Apply(s, op).objects[x].outside == s.objects[x].outside
  {
    match op
    case OutsidePut(b) => assert ObjectOk(s, b);
    case DuplicateOp(i) => EachKind(s.objects, s.states[i].slots, x);
    case DestroyOp(i) => EachKind(s.objects, s.states[i].slots, x);
    case _ =>
  }

  lemma SlotsStep(s: State, op: Op, i: nat)
    requires Inv(s) && Allowed(s, op) && !op.RebuildOp? && i < |Apply(s, op).states|
    ensures SlotsOk(Apply(s, op), i)
  {
    var s' := Apply(s, op);
    forall x | 0 <= x < |s.objects| ensures s'.objects[x].kind == s.objects[x].kind {
      KindStep(s, op, x);
    }
    assert i < |s.states| ==> SlotsOk(s, i);
    if op.DuplicateOp? {
      assert SlotsOk(s, op.i);
    }
  }

  lemma StepInv(s: State, s': State)
    requires Inv(s) && Next(s, s')
    ensures Inv(s')
  {
    var op :| Allowed(s, op) && s' == Apply(s, op);
    if op.RebuildOp? {
      RebuildInv(s, op);
    } else {
      forall x | 0 <= x < |s'.objects| ensures ObjectOk(s', x) {
        ObjectStep(s, op, x);
      }
      forall i | 0 <= i < |s'.states| ensures SlotsOk(s', i) {
        SlotsStep(s, op, i);
      }
      forall x | 0 <= x < |s.objects|
        ensures x < |s'.objects| && s'.objects[x].kind == s.objects[x].kind
        ensures s.objects[x].kind.LutSurface? ==> s'.objects[x].outside == s.objects[x].outside
      {
        KindStep(s, op, x);
      }
    }
  }

  lemma {:induction false} RunInv(tr: seq<State>)
    requires Run(tr)
    ensures Inv(tr[|tr| - 1])
  {
    var n := |tr| - 1;
    if n > 0 {
      RunInv(tr[..n]);
      StepInv(tr[n - 1], tr[n]);
    }
  }

  /** Over any run each blob's count is its outside references plus the slots that name it, each LUT
      surface's count is just the slots that name it, and an object is released exactly when the
      count reaches zero, hence once. */
  lemma CountsMatchSlots(tr: seq<State>, x: nat)
    requires Run(tr) && x < |tr[|tr| - 1].objects|
    ensures var s := tr[|tr| - 1]; var o := s.objects[x];
      && o.count == (if o.kind.LutSurface? then 0 else o.outside) + Named(s.states, x)
      && o.released == (if o.count == 0 then 1 else 0)
  {
    RunInv(tr);
    assert ObjectOk(tr[|tr| - 1], x);
  }

  /** What a live state's slot names has not been released. */
  lemma NamedIsLive(tr: seq<State>, i: nat, j: nat)
    requires Run(tr) && i < |tr[|tr| - 1].states| && tr[|tr| - 1].states[i].live
    requires j < |tr[|tr| - 1].states[i].slots| && tr[|tr| - 1].states[i].slots[j].Some?
    ensures var s := tr[|tr| - 1]; var x := s.states[i].slots[j].value;
      x < |s.objects| && s.objects[x].released == 0 && (s.objects[x].kind.LutSurface? <==> IsSurfaceSlot(j))
  {
    RunInv(tr);
    var s := tr[|tr| - 1];
    assert SlotsOk(s, i);
    var x := s.states[i].slots[j].value;
    assert ObjectOk(s, x);
    NamedSlot(s, i, j, None, x);
  }

  // The code in place

  /** The counted objects and the plane states, updated as the source updates them. */
  class PlaneStates {
    var objects: seq<Object>
    var states: seq<PlaneState>

    ghost function View(): State
      reads this
    {
      State(objects, states)
    }

    method BlobGet(x: Option<nat>)
      modifies this`objects
      ensures objects == Get(old(objects), x)
    {
      if x.Some? && x.value < |objects| {
        objects := objects[x.value := objects[x.value].(count := objects[x.value].count + 1)];
      }
    }

    method BlobPut(x: Option<nat>)
      modifies this`objects
      ensures objects == Put(old(objects), x)
    {
      if x.Some? && x.value < |objects| {
        var o := objects[x.value];
        objects := objects[x.value := o.(count := o.count - 1, released := if o.count == 1 then o.released + 1 else o.released)];
      }
    }

    method ReplaceBlobFromId(i: nat, slot: nat, id: Option<nat>, expected: nat) returns (ok: bool, replaced: bool)
      requires i < |states| && slot < |states[i].slots|
      modifies this
      ensures (View(), ok, replaced) == ReplaceBlob(old(View()), i, slot, id, expected)
    {
      var oldBlob := states[i].slots[slot];
      if id.Some? {
        if id.value >= |objects| || !objects[id.value].kind.PropertyBlob? || objects[id.value].count <= 0 {
          return false, false;
        }
        BlobGet(id);
        if expected > 0 && objects[id.value].kind.length != expected {
          BlobPut(id);
          return false, false;
        }
      }
      ok, replaced := true, oldBlob != id;
      if replaced {
        BlobPut(oldBlob);
        BlobGet(id);
        states := states[i := states[i].(slots := states[i].slots[slot := id])];
      }
      BlobPut(id);
    }

    /** The references a duplicate takes, slot after slot. */
    method DuplicateState(i: nat)
      requires i < |states|
      modifies this
      ensures View() == Duplicate(old(View()), i)
    {
      var p := states[i];
      for j := 0 to |p.slots|
        invariant states == old(states) && objects == GetEach(old(objects), p.slots[..j])
      {
        assert p.slots[..j + 1][..j] == p.slots[..j];
        BlobGet(p.slots[j]);
      }
      assert p.slots[..|p.slots|] == p.slots;
      states := states + [p.(live := true, degammaChanged := false, tmoChanged := false)];
    }

    /** The references a destroyed state gives back, slot after slot. */
    method DestroyState(i: nat)
      requires i < |states|
      modifies this
      ensures View() == Destroy(old(View()), i)
    {
      var p := states[i];
      for j := 0 to |p.slots|
        invariant states == old(states) && objects == PutEach(old(objects), p.slots[..j])
      {
        assert p.slots[..j + 1][..j] == p.slots[..j];
        BlobPut(p.slots[j]);
      }
      assert p.slots[..|p.slots|] == p.slots;
      states := states[i := p.(live := false)];
    }

    /** One LUT slot of plane_req_config_update; fails when a wanted surface cannot be made. */
    method RebuildLut(i: nat, slot: nat, wanted: bool, allocates: bool) returns (ok: bool)
      requires i < |states| && slot < |states[i].slots|
      modifies this
      ensures View() == RebuildSlot(old(View()), i, slot, wanted, allocates)
      ensures ok <==> wanted ==> allocates
    {
      BlobPut(states[i].slots[slot]);
      var p := states[i].(slots := states[i].slots[slot := None]);
      if wanted {
        if !allocates {
          states := states[i := p];
          return false;
        }
        objects := objects + [Object(LutSurface, 1, 0, 0)];
        p := states[i].(slots := states[i].slots[slot := Some(|objects| - 1)]);
      }
      states := states[i := p];
      ok := true;
    }

    method UpdateLuts(i: nat, vss: bool, shaped: bool, allocatesDegamma: bool, allocatesTmo: bool)
      returns (ok: bool)
      requires i < |states| && |states[i].slots| == SLOTS
      modifies this
      ensures View() == Rebuild(old(View()), i, vss, shaped, allocatesDegamma, allocatesTmo)
    {
      var p := states[i];
      ok := true;
      if p.degammaChanged {
        var wanted := if vss then shaped || p.slots[DEGAMMA_LUT].Some? else p.slots[DEGAMMA_LUT].Some?;
        ok := RebuildLut(i, DEGAMMA_SURFACE, wanted, allocatesDegamma);
        if !ok {
          return;
        }
      }
      if p.tmoChanged {
        ok := RebuildLut(i, TMO_SURFACE, p.slots[TMO_LUT].Some?, allocatesTmo);
      }
    }
  }
}
