/**
 * What the scheduler promises its callers, stated over the model of
 * `SchedulerState` and proved from the invariant of `SchedulerInvariant`.
 */
module SchedulerProperties {
  import opened SchedulerTypes
  import opened SlotPool
  import opened SlotSharing
  import opened SchedulerState
  import opened SchedulerInvariant

  // ---------------------------------------------------------------------------
  // Co-location

  /** `st'` is `st` with one more slot record, counted once, under `locality`. */
  predicate Counted(st: State, st': State, locality: Locality)
  {
    && |st'.handles| == |st.handles| + 1 && st'.handles[..|st.handles|] == st.handles
    && st'.localized == st.localized + (if locality == Local then 1 else 0)
    && st'.nonLocalized == st.nonLocalized + (if locality == NonLocal then 1 else 0)
    && st'.unconstrained == st.unconstrained + (if locality == Unconstrained then 1 else 0)
  }

  /** Where a slot is granted, how it is counted and what becomes of the
      constraints' locations, way in by way in. */
  lemma JoinNestedFacts(st: State, v: VertexId, g: SharingGroupId, c: Constraint, id: SlotId)
    requires NestedSlot(st, g, c) == Some(id)
    ensures var o := JoinNestedOutcome(st, v, g, c, id); var key := CoLocationKey(c.group);
      && o.result == Success(LogicalSlot(|st.handles|, AssignmentOf(st, g).slots[id].location, Local))
      && o.state.bindings == st.bindings && o.state.free == st.free && Counted(st, o.state, Local)
      && o.state.handles[|st.handles|].owner == InShared(g, id, key)
      && g in o.state.assignments && Hosts(o.state.assignments[g], id, key)
      && o.state.assignments[g].slots[id].subSlots[key].CoLocationSlot?
      && o.state.assignments[g].slots[id].subSlots[key].constraint == c
      && |st.handles| in o.state.assignments[g].slots[id].subSlots[key].handles
  {
    assert Grant(st, SlotRecord(v, AssignmentOf(st, g).slots[id].location, InShared(g, id, CoLocationKey(c.group)), false), Local).state.handles[..|st.handles|] == st.handles;
  }

  lemma IntoSharedSlotFacts(st: State, v: VertexId, g: SharingGroupId, c: Option<Constraint>, id: SlotId, locality: Locality)
    requires id in AssignmentOf(st, g).slots
    ensures var o := IntoSharedSlot(st, v, g, c, id, locality); var loc := AssignmentOf(st, g).slots[id].location;
      && o.result == Success(LogicalSlot(|st.handles|, loc, locality))
      && o.state.bindings == (if c.None? || c.value in st.bindings then st.bindings else st.bindings[c.value := loc])
      && o.state.free == st.free && Counted(st, o.state, locality)
      && o.state.handles[|st.handles|].owner == InShared(g, id, KeyFor(v, c))
      && g in o.state.assignments && Hosts(o.state.assignments[g], id, KeyFor(v, c))
      && o.state.assignments[g].slots[id].subSlots[KeyFor(v, c)] == NewSubSlot(c, |st.handles|)
  {
  }

  lemma IntoNewSlotFacts(st: State, v: VertexId, g: SharingGroupId, c: Option<Constraint>, p: InstancePick)
    ensures var o := IntoNewSlot(st, v, g, c, p);
      && o.result == Success(LogicalSlot(|st.handles|, p.location, p.locality))
      && o.state.bindings == (if c.None? || c.value in st.bindings then st.bindings else st.bindings[c.value := p.location])
      && o.state.free == p.rest && Counted(st, o.state, p.locality)
      && o.state.handles[|st.handles|].owner == InShared(g, st.nextSlot, KeyFor(v, c))
      && g in o.state.assignments && Hosts(o.state.assignments[g], st.nextSlot, KeyFor(v, c))
      && o.state.assignments[g].slots[st.nextSlot].subSlots[KeyFor(v, c)] == NewSubSlot(c, |st.handles|)
  {
  }

  /** The slot granted when a subtask of group `g` goes where `ChooseInGroup` says. */
  lemma InGroupResult(st: State, v: VertexId, g: SharingGroupId, c: Option<Constraint>, prefs: seq<Location>)
    ensures var r := ChooseInGroup(st, v, g, c, prefs); var o := AllocateInGroup(st, v, g, c, prefs);
      && (r.NoSlot? <==> o.result.Failure?)
      && (r.NoSlot? ==> o.state == st)
      && (r.JoinNestedSlot? ==> o.result == Success(LogicalSlot(|st.handles|, AssignmentOf(st, g).slots[r.slot].location, Local)))
      && (r.UseSharedSlot? ==> o.result == Success(LogicalSlot(|st.handles|, AssignmentOf(st, g).slots[r.slot].location, r.locality)))
      && (r.OpenSharedSlot? ==> o.result == Success(LogicalSlot(|st.handles|, r.pick.location, r.pick.locality)))
      && (r.JoinNestedSlot? || r.NoSlot? || c.None? || c.value in st.bindings ==> o.state.bindings == st.bindings)
      && (!r.JoinNestedSlot? && o.result.Success? && c.Some? && c.value !in st.bindings ==>
            o.state.bindings == st.bindings[c.value := o.result.value.location])
      && (!r.OpenSharedSlot? ==> o.state.free == st.free)
  {
    match ChooseInGroup(st, v, g, c, prefs)
    case JoinNestedSlot(id) => JoinNestedFacts(st, v, g, c.value, id);
    case UseSharedSlot(id, locality) => IntoSharedSlotFacts(st, v, g, c, id, locality);
    case OpenSharedSlot(p) => IntoNewSlotFacts(st, v, g, c, p);
    case NoSlot =>
  }

  /** A bound subtask of group `g` lands at its constraint's location, as a local grant. */
  lemma BoundInGroup(st: State, v: VertexId, g: SharingGroupId, c: Constraint, prefs: seq<Location>)
    requires NestedSlotsBound(st.assignments, st.bindings, st.placement) && c in st.bindings
    ensures var o := AllocateInGroup(st, v, g, Some(c), prefs);
      o.result.Success? ==> o.result.value.location == st.bindings[c] && o.result.value.locality == Local
  {
    var a := AssignmentOf(st, g);
    var l := st.bindings[c];
    ChooseInGroupCases(st, v, g, Some(c), prefs);
    InGroupResult(st, v, g, Some(c), prefs);
    match ChooseInGroup(st, v, g, Some(c), prefs)
    case JoinNestedSlot(id) =>
      assert g in st.assignments && Hosts(st.assignments[g], id, CoLocationKey(c.group));
    case UseSharedSlot(id, locality) =>
      SharedSlotForTaskSpec(a, KeyFor(v, Some(c)), [l], true);
    case OpenSharedSlot(p) =>
      FindInstanceSpec(st.free, [l], true);
    case NoSlot =>
  }

  /**
   * A subtask whose constraint already has a location gets a slot at that
   * location or none, and the slot counts as local whatever the subtask's own
   * preferences were.
   */
  lemma BoundConstraintOverrides(st: State, unit: ScheduledUnit, prefs: seq<Location>)
    requires Inv(st)
    requires unit.sharing.CoLocated? && unit.sharing.constraint in st.bindings
    ensures var o := Allocate(st, unit, prefs);
      o.result.Success? ==> o.result.value.location == st.bindings[unit.sharing.constraint] && o.result.value.locality == Local
  {
    BoundInGroup(st, unit.vertex, unit.sharing.group, unit.sharing.constraint, prefs);
  }

  /** `AllocateBinds` for a subtask of group `g`. */
  lemma InGroupBinds(st: State, v: VertexId, g: SharingGroupId, c: Option<Constraint>, prefs: seq<Location>)
    requires NestedSlotsBound(st.assignments, st.bindings, st.placement)
    ensures var o := AllocateInGroup(st, v, g, c, prefs);
      && (forall c' :: c' in st.bindings ==> c' in o.state.bindings && o.state.bindings[c'] == st.bindings[c'])
      && (o.result.Success? && c.Some? ==> c.value in o.state.bindings && o.state.bindings[c.value] == o.result.value.location)
      && (forall c' :: c' in o.state.bindings && c' !in st.bindings ==> c == Some(c') && o.result.Success?)
  {
    InGroupResult(st, v, g, c, prefs);
    if c.Some? && c.value in st.bindings {
      BoundInGroup(st, v, g, c.value, prefs);
    } else if c.Some? {
      UnboundNotJoined(st, v, g, c.value, prefs);
    }
  }

  /**
   * Allocation never moves a constraint that has a location, and the first
   * subtask of a constraint to get a slot locks the constraint to that slot's
   * location; nothing else gains a location.
   */
  lemma AllocateBinds(st: State, unit: ScheduledUnit, prefs: seq<Location>)
    requires Inv(st)
    ensures var o := Allocate(st, unit, prefs);
      && (forall c :: c in st.bindings ==> c in o.state.bindings && o.state.bindings[c] == st.bindings[c])
      && (o.result.Success? && unit.sharing.CoLocated? ==>
            unit.sharing.constraint in o.state.bindings && o.state.bindings[unit.sharing.constraint] == o.result.value.location)
      && (forall c :: c in o.state.bindings && c !in st.bindings ==>
            unit.sharing.CoLocated? && c == unit.sharing.constraint && o.result.Success?)
  {
    match unit.sharing
    case Unshared =>
    case Shared(g) => InGroupBinds(st, unit.vertex, g, None, prefs);
    case CoLocated(g, c) => InGroupBinds(st, unit.vertex, g, Some(c), prefs);
  }

  /** A constraint without a location has no live nested slot to join. */
  lemma UnboundNotJoined(st: State, v: VertexId, g: SharingGroupId, c: Constraint, prefs: seq<Location>)
    requires NestedSlotsBound(st.assignments, st.bindings, st.placement) && c !in st.bindings
    ensures !ChooseInGroup(st, v, g, Some(c), prefs).JoinNestedSlot?
  {
  }

  /**
   * Two subtasks of one constraint get slots at the same location, however
   * many instances, allocations and releases came between them; the later one
   * counts as local.
   */
  lemma CoLocatedSameLocation(st: State, u1: ScheduledUnit, p1: seq<Location>, ops: seq<Op>, u2: ScheduledUnit, p2: seq<Location>)
    requires Inv(st) && ConstraintInGroup(st, u1)
    requires u1.sharing.CoLocated? && u2.sharing.CoLocated? && u1.sharing.constraint == u2.sharing.constraint
    requires AdmissibleRun(Allocate(st, u1, p1).state, ops)
    ensures var o1 := Allocate(st, u1, p1); var o2 := Allocate(Run(o1.state, ops), u2, p2);
      o1.result.Success? && o2.result.Success? ==>
        o2.result.value.location == o1.result.value.location && o2.result.value.locality == Local
  {
    var c := u1.sharing.constraint;
    var o1 := Allocate(st, u1, p1);
    AllocateBinds(st, u1, p1);
    AllocateInv(st, u1, p1);
    RunKeepsBindings(o1.state, ops);
    RunInv(o1.state, ops);
    if o1.result.Success? {
      BoundConstraintOverrides(Run(o1.state, ops), u2, p2);
    }
  }

  // ---------------------------------------------------------------------------
  // Runs of operations

  /** A call on the scheduler. */
  datatype Op = NewInstance(inst: Instance) | AllocateUnit(unit: ScheduledUnit, prefs: seq<Location>) | ReleaseHandle(h: nat)

  /** A call a caller may make in state `st`: a co-location constraint stays in
      its group, and only granted slots are released. */
  predicate Admissible(st: State, op: Op)
  {
    match op
    case NewInstance(_) => true
    case AllocateUnit(unit, _) => ConstraintInGroup(st, unit)
    case ReleaseHandle(h) => h < |st.handles|
  }

  function Apply(st: State, op: Op): State
    requires Admissible(st, op)
  {
    match op
    case NewInstance(inst) => Register(st, inst)
    case AllocateUnit(unit, prefs) => Allocate(st, unit, prefs).state
    case ReleaseHandle(h) => Release(st, h)
  }

  predicate AdmissibleRun(st: State, ops: seq<Op>)
    decreases |ops|
  {
    ops == [] || (Admissible(st, ops[0]) && AdmissibleRun(Apply(st, ops[0]), ops[1..]))
  }

  function Run(st: State, ops: seq<Op>): State
    requires AdmissibleRun(st, ops)
    decreases |ops|
  {
    if ops == [] then st else Run(Apply(st, ops[0]), ops[1..])
  }

  lemma ApplyInv(st: State, op: Op)
    requires Inv(st) && Admissible(st, op)
    ensures Inv(Apply(st, op))
  {
    match op
    case NewInstance(inst) => RegisterInv(st, inst);
    case AllocateUnit(unit, prefs) => AllocateInv(st, unit, prefs);
    case ReleaseHandle(h) => ReleaseInv(st, h);
  }

  /** Every admissible run keeps the invariant. */
  lemma {:induction false} RunInv(st: State, ops: seq<Op>)
    requires Inv(st) && AdmissibleRun(st, ops)
    ensures Inv(Run(st, ops))
    decreases |ops|
  {
    if ops != [] {
      ApplyInv(st, ops[0]);
      RunInv(Apply(st, ops[0]), ops[1..]);
    }
  }

  /** One more admissible call extends a run by one step. */
  lemma {:induction false} RunSnoc(st: State, ops: seq<Op>, op: Op)
    requires AdmissibleRun(st, ops) && Admissible(Run(st, ops), op)
    ensures AdmissibleRun(st, ops + [op]) && Run(st, ops + [op]) == Apply(Run(st, ops), op)
    decreases |ops|
  {
    if ops == [] {
      assert ops + [op] == [op];
    } else {
      assert (ops + [op])[1..] == ops[1..] + [op];
      RunSnoc(Apply(st, ops[0]), ops[1..], op);
    }
  }

  /** `b'` keeps every location of `b`. */
  predicate Extends(b: map<Constraint, Location>, b': map<Constraint, Location>)
  {
    forall c :: c in b ==> c in b' && b'[c] == b[c]
  }

  /** No call moves a constraint once it has a location: neither a new
      instance, nor an allocation, nor a release. */
  lemma ApplyKeepsBindings(st: State, op: Op)
    requires Inv(st) && Admissible(st, op)
    ensures Extends(st.bindings, Apply(st, op).bindings)
  {
    match op
    case NewInstance(inst) =>
    case AllocateUnit(unit, prefs) => AllocateBinds(st, unit, prefs);
    case ReleaseHandle(h) =>
  }

  lemma {:induction false} RunKeepsBindings(st: State, ops: seq<Op>)
    requires Inv(st) && AdmissibleRun(st, ops)
    ensures Extends(st.bindings, Run(st, ops).bindings)
    decreases |ops|
  {
    if ops != [] {
      ApplyKeepsBindings(st, ops[0]);
      ApplyInv(st, ops[0]);
      RunKeepsBindings(Apply(st, ops[0]), ops[1..]);
    }
  }

  // ---------------------------------------------------------------------------
  // Outcome and locality counters

  /**
   * A refused allocation changes nothing. A granted one adds exactly one slot
   * record, whose index is the handle returned, and bumps exactly the counter
   * of its locality.
   */
  lemma AllocateCounts(st: State, unit: ScheduledUnit, prefs: seq<Location>)
    ensures var o := Allocate(st, unit, prefs);
      && (o.result.Failure? ==> o.state == st)
      && (o.result.Success? ==> o.result.value.id == |st.handles| && Counted(st, o.state, o.result.value.locality))
  {
    match unit.sharing
    case Unshared =>
      var o := Allocate(st, unit, prefs);
      if o.result.Success? {
        assert o.state.handles[..|st.handles|] == st.handles;
      }
    case Shared(g) => InGroupCounts(st, unit.vertex, g, None, prefs);
    case CoLocated(g, c) => InGroupCounts(st, unit.vertex, g, Some(c), prefs);
  }

  lemma InGroupCounts(st: State, v: VertexId, g: SharingGroupId, c: Option<Constraint>, prefs: seq<Location>)
    ensures var o := AllocateInGroup(st, v, g, c, prefs);
      && (o.result.Failure? ==> o.state == st)
      && (o.result.Success? ==> o.result.value.id == |st.handles| && Counted(st, o.state, o.result.value.locality))
  {
    InGroupResult(st, v, g, c, prefs);
    match ChooseInGroup(st, v, g, c, prefs)
    case JoinNestedSlot(id) => JoinNestedFacts(st, v, g, c.value, id);
    case UseSharedSlot(id, locality) => IntoSharedSlotFacts(st, v, g, c, id, locality);
    case OpenSharedSlot(p) => IntoNewSlotFacts(st, v, g, c, p);
    case NoSlot =>
  }

  /**
   * A subtask without a located constraint is classified by its own
   * preferences: local exactly when its slot is at a preferred location,
   * unconstrained exactly when it has no preferences, non-local otherwise.
   */
  lemma UnboundLocality(st: State, unit: ScheduledUnit, prefs: seq<Location>)
    requires Inv(st)
    requires unit.sharing.CoLocated? ==> unit.sharing.constraint !in st.bindings
    ensures var o := Allocate(st, unit, prefs);
      o.result.Success? ==>
        && (o.result.value.locality == Local <==> o.result.value.location in prefs)
        && (o.result.value.locality == Unconstrained <==> prefs == [])
        && (o.result.value.locality == NonLocal <==> prefs != [] && o.result.value.location !in prefs)
  {
    match unit.sharing
    case Unshared => FindInstanceSpec(st.free, prefs, false);
    case Shared(g) => UnboundInGroup(st, unit.vertex, g, None, prefs);
    case CoLocated(g, c) => UnboundInGroup(st, unit.vertex, g, Some(c), prefs);
  }

  lemma UnboundInGroup(st: State, v: VertexId, g: SharingGroupId, c: Option<Constraint>, prefs: seq<Location>)
    requires NestedSlotsBound(st.assignments, st.bindings, st.placement)
    requires c.Some? ==> c.value !in st.bindings
    ensures var o := AllocateInGroup(st, v, g, c, prefs);
      o.result.Success? ==>
        && (o.result.value.locality == Local <==> o.result.value.location in prefs)
        && (o.result.value.locality == Unconstrained <==> prefs == [])
  {
    ChooseInGroupCases(st, v, g, c, prefs);
    InGroupResult(st, v, g, c, prefs);
    if c.Some? {
      UnboundNotJoined(st, v, g, c.value, prefs);
    }
    match ChooseInGroup(st, v, g, c, prefs)
    case JoinNestedSlot(id) =>
    case UseSharedSlot(id, locality) => SharedSlotForTaskSpec(AssignmentOf(st, g), KeyFor(v, c), prefs, false);
    case OpenSharedSlot(p) => FindInstanceSpec(st.free, prefs, false);
    case NoSlot =>
  }

  /**
   * With its constraint located at `l`, a subtask is refused exactly when its
   * constraint has no live nested slot, no raw slot at `l` is free, and every
   * shared slot of its group at `l` already hosts its co-location group.
   */
  lemma BoundRefusedIff(st: State, unit: ScheduledUnit, prefs: seq<Location>)
    requires Inv(st) && ConstraintInGroup(st, unit)
    requires unit.sharing.CoLocated? && unit.sharing.constraint in st.bindings
    ensures var g, c := unit.sharing.group, unit.sharing.constraint;
      var a := AssignmentOf(st, g); var l := st.bindings[c];
      Allocate(st, unit, prefs).result.Failure? <==>
        && NoNestedOf(st, c)
        && l !in st.free
        && forall id :: id in a.slots && !Hosts(a, id, CoLocationKey(c.group)) ==> a.slots[id].location != l
  {
    BoundRefusedInGroup(st, unit.vertex, unit.sharing.group, unit.sharing.constraint, prefs);
  }

  lemma BoundRefusedInGroup(st: State, v: VertexId, g: SharingGroupId, c: Constraint, prefs: seq<Location>)
    requires NestedSlotsBound(st.assignments, st.bindings, st.placement) && AssignmentsWellformed(st.assignments, st.nextSlot)
    requires c in st.placement ==> st.placement[c].group == g
    requires c in st.bindings
    ensures var a := AssignmentOf(st, g); var l := st.bindings[c];
      AllocateInGroup(st, v, g, Some(c), prefs).result.Failure? <==>
        && NoNestedOf(st, c)
        && l !in st.free
        && forall id :: id in a.slots && !Hosts(a, id, CoLocationKey(c.group)) ==> a.slots[id].location != l
  {
    var l := st.bindings[c];
    assert Wanted(st, Some(c), prefs) == [l] && IsBound(st, Some(c));
    RefusedIffNoSlot(st, v, g, Some(c), prefs);
    NoSlotIff(st, v, g, Some(c), prefs);
    NestedNoneIff(st, g, c);
    BoundGroupSlotNone(AssignmentOf(st, g), CoLocationKey(c.group), l);
    BoundFreeNone(st.free, l);
  }

  /**
   * Without a located constraint, a subtask is refused exactly when no raw
   * slot is free and, in a group, every shared slot of the group already
   * hosts its key; preferences never cause a refusal.
   */
  lemma UnboundRefusedIff(st: State, unit: ScheduledUnit, prefs: seq<Location>)
    requires Inv(st)
    requires unit.sharing.CoLocated? ==> unit.sharing.constraint !in st.bindings
    ensures var full := match unit.sharing
        case Unshared => true
        case Shared(g) => forall id :: id in AssignmentOf(st, g).slots ==> Hosts(AssignmentOf(st, g), id, VertexKey(unit.vertex))
        case CoLocated(g, c) => forall id :: id in AssignmentOf(st, g).slots ==> Hosts(AssignmentOf(st, g), id, CoLocationKey(c.group));
      Allocate(st, unit, prefs).result.Failure? <==> st.free == [] && full
  {
    match unit.sharing
    case Unshared => FindInstanceSpec(st.free, prefs, false);
    case Shared(g) => UnboundRefusedInGroup(st, unit.vertex, g, None, prefs);
    case CoLocated(g, c) => UnboundRefusedInGroup(st, unit.vertex, g, Some(c), prefs);
  }

  lemma UnboundRefusedInGroup(st: State, v: VertexId, g: SharingGroupId, c: Option<Constraint>, prefs: seq<Location>)
    requires NestedSlotsBound(st.assignments, st.bindings, st.placement) && AssignmentsWellformed(st.assignments, st.nextSlot)
    requires c.Some? ==> c.value !in st.bindings
    ensures var a := AssignmentOf(st, g);
      AllocateInGroup(st, v, g, c, prefs).result.Failure? <==>
        st.free == [] && forall id :: id in a.slots ==> Hosts(a, id, KeyFor(v, c))
  {
    var a := AssignmentOf(st, g);
    var key := KeyFor(v, c);
    assert Wanted(st, c, prefs) == prefs && !IsBound(st, c);
    if c.Some? {
      UnboundNotJoined(st, v, g, c.value, prefs);
    }
    RefusedIffNoSlot(st, v, g, c, prefs);
    NoSlotIff(st, v, g, c, prefs);
    GroupWellformed(st.assignments, st.nextSlot, g);
    EligibleExactly(a, key);
    SharedSlotForTaskSpec(a, key, prefs, false);
    FindInstanceSpec(st.free, prefs, false);
  }

  lemma RefusedIffNoSlot(st: State, v: VertexId, g: SharingGroupId, c: Option<Constraint>, prefs: seq<Location>)
    ensures AllocateInGroup(st, v, g, c, prefs).result.Failure? <==> ChooseInGroup(st, v, g, c, prefs).NoSlot?
  {
  }

  /** No way in exactly when there is no nested slot, no slot of the group
      and no raw slot to take. */
  lemma NoSlotIff(st: State, v: VertexId, g: SharingGroupId, c: Option<Constraint>, prefs: seq<Location>)
    ensures ChooseInGroup(st, v, g, c, prefs).NoSlot? <==>
      && (c.Some? ==> NestedSlot(st, g, c.value).None?)
      && SharedSlotForTask(AssignmentOf(st, g), KeyFor(v, c), Wanted(st, c, prefs), IsBound(st, c)).None?
      && FindInstance(st.free, Wanted(st, c, prefs), IsBound(st, c)).None?
  {
  }

  lemma NestedNoneIff(st: State, g: SharingGroupId, c: Constraint)
    requires NestedSlotsBound(st.assignments, st.bindings, st.placement) && AssignmentsWellformed(st.assignments, st.nextSlot)
    requires c in st.placement ==> st.placement[c].group == g
    ensures NestedSlot(st, g, c).None? <==> NoNestedOf(st, c)
  {
    if NestedSlot(st, g, c).None? {
      NoNestedWhenNone(st, g, c);
    } else {
      var id := NestedSlot(st, g, c).value;
      assert g in st.assignments && Hosts(st.assignments[g], id, CoLocationKey(c.group));
    }
  }

  /** A bound subtask finds no slot in its group exactly when every slot open
      to it is elsewhere. */
  lemma BoundGroupSlotNone(a: Assignment, key: GroupKey, l: Location)
    requires Wellformed(a)
    ensures SharedSlotForTask(a, key, [l], true).None? <==>
      forall id :: id in a.slots && !Hosts(a, id, key) ==> a.slots[id].location != l
  {
    EligibleExactly(a, key);
    SharedSlotForTaskSpec(a, key, [l], true);
  }

  lemma BoundFreeNone(free: seq<Location>, l: Location)
    ensures FindInstance(free, [l], true).None? <==> l !in free
  {
    FindInstanceSpec(free, [l], true);
  }

  // ---------------------------------------------------------------------------
  // Exclusivity of shared slots

  /** Record `h` sits in the sub-slot of its own key: a subtask without
      constraint alone in the sub-slot of its vertex, a subtask with a
      constraint in the nested slot of that very constraint. */
  predicate InOwnSubSlot(st: State, h: nat, unit: ScheduledUnit)
    requires !unit.sharing.Unshared?
  {
    var c := if unit.sharing.CoLocated? then Some(unit.sharing.constraint) else None;
    var key := KeyFor(unit.vertex, c);
    && h < |st.handles|
    && st.handles[h].owner.InShared? && st.handles[h].owner.group == unit.sharing.group && st.handles[h].owner.key == key
    && Hosts(AssignmentOf(st, unit.sharing.group), st.handles[h].owner.slot, key)
    && var sub := AssignmentOf(st, unit.sharing.group).slots[st.handles[h].owner.slot].subSlots[key];
       if c.None? then sub == TaskSlot(h) else sub.CoLocationSlot? && sub.constraint == c.value && h in sub.handles
  }

  lemma AllocateOwnSubSlot(st: State, unit: ScheduledUnit, prefs: seq<Location>)
    requires !unit.sharing.Unshared?
    ensures var o := Allocate(st, unit, prefs);
      o.result.Success? ==> InOwnSubSlot(o.state, |st.handles|, unit)
  {
    var g := unit.sharing.group;
    var c := if unit.sharing.CoLocated? then Some(unit.sharing.constraint) else None;
    InGroupResult(st, unit.vertex, g, c, prefs);
    match ChooseInGroup(st, unit.vertex, g, c, prefs)
    case JoinNestedSlot(id) => OwnSubSlotJoined(st, unit, id);
    case UseSharedSlot(id, locality) => OwnSubSlotEntered(st, unit, id, locality);
    case OpenSharedSlot(p) => OwnSubSlotOpened(st, unit, p);
    case NoSlot =>
  }

  lemma OwnSubSlotJoined(st: State, unit: ScheduledUnit, id: SlotId)
    requires unit.sharing.CoLocated? && NestedSlot(st, unit.sharing.group, unit.sharing.constraint) == Some(id)
    ensures InOwnSubSlot(JoinNestedOutcome(st, unit.vertex, unit.sharing.group, unit.sharing.constraint, id).state, |st.handles|, unit)
  {
    JoinNestedFacts(st, unit.vertex, unit.sharing.group, unit.sharing.constraint, id);
  }

  lemma OwnSubSlotEntered(st: State, unit: ScheduledUnit, id: SlotId, locality: Locality)
    requires !unit.sharing.Unshared? && id in AssignmentOf(st, unit.sharing.group).slots
    ensures var c := if unit.sharing.CoLocated? then Some(unit.sharing.constraint) else None;
      InOwnSubSlot(IntoSharedSlot(st, unit.vertex, unit.sharing.group, c, id, locality).state, |st.handles|, unit)
  {
    var c := if unit.sharing.CoLocated? then Some(unit.sharing.constraint) else None;
    IntoSharedSlotFacts(st, unit.vertex, unit.sharing.group, c, id, locality);
  }

  lemma OwnSubSlotOpened(st: State, unit: ScheduledUnit, p: InstancePick)
    requires !unit.sharing.Unshared?
    ensures var c := if unit.sharing.CoLocated? then Some(unit.sharing.constraint) else None;
      InOwnSubSlot(IntoNewSlot(st, unit.vertex, unit.sharing.group, c, p).state, |st.handles|, unit)
  {
    var c := if unit.sharing.CoLocated? then Some(unit.sharing.constraint) else None;
    IntoNewSlotFacts(st, unit.vertex, unit.sharing.group, c, p);
  }

  /** Two live subtasks of a group never share the sub-slot of a vertex. */
  lemma VertexSubSlotExclusive(st: State, x: nat, y: nat)
    requires Inv(st) && x < |st.handles| && y < |st.handles|
    requires !st.handles[x].released && !st.handles[y].released
    requires st.handles[x].owner == st.handles[y].owner && st.handles[x].owner.InShared? && st.handles[x].owner.key.VertexKey?
    ensures x == y
  {
    assert Placed(st.handles[x], x, st.assignments) && Placed(st.handles[y], y, st.assignments);
    var o := st.handles[x].owner;
    assert SubSlotFits(o.key, st.assignments[o.group].slots[o.slot].subSlots[o.key]);
  }

  /** Two live subtasks without constraint in one shared slot are subtasks of
      two different vertices. */
  lemma SharedSlotVerticesDistinct(st: State, x: nat, y: nat)
    requires Inv(st) && x < |st.handles| && y < |st.handles| && x != y
    requires !st.handles[x].released && !st.handles[y].released
    requires st.handles[x].owner.InShared? && st.handles[y].owner.InShared?
    requires st.handles[x].owner.key.VertexKey? && st.handles[y].owner.key.VertexKey?
    requires st.handles[x].owner.group == st.handles[y].owner.group && st.handles[x].owner.slot == st.handles[y].owner.slot
    ensures st.handles[x].vertex != st.handles[y].vertex
  {
    assert KeyMatches(st.handles[x]) && KeyMatches(st.handles[y]);
    if st.handles[x].vertex == st.handles[y].vertex {
      VertexSubSlotExclusive(st, x, y);
    }
  }

  /** Two live subtasks of one co-location group in one shared slot sit
      together in the nested slot of a single constraint. */
  lemma SharedSlotOneConstraint(st: State, x: nat, y: nat)
    requires Inv(st) && x < |st.handles| && y < |st.handles|
    requires !st.handles[x].released && !st.handles[y].released
    requires st.handles[x].owner == st.handles[y].owner && st.handles[x].owner.InShared? && st.handles[x].owner.key.CoLocationKey?
    ensures var o := st.handles[x].owner;
      && o.group in st.assignments && Hosts(st.assignments[o.group], o.slot, o.key)
      && st.assignments[o.group].slots[o.slot].subSlots[o.key].CoLocationSlot?
      && x in st.assignments[o.group].slots[o.slot].subSlots[o.key].handles
      && y in st.assignments[o.group].slots[o.slot].subSlots[o.key].handles
  {
    assert Placed(st.handles[x], x, st.assignments) && Placed(st.handles[y], y, st.assignments);
    var o := st.handles[x].owner;
    assert SubSlotFits(o.key, st.assignments[o.group].slots[o.slot].subSlots[o.key]);
  }

  // ---------------------------------------------------------------------------
  // Slot accounting

  lemma HostedIsLive(handles: seq<SlotRecord>, assignments: map<SharingGroupId, Assignment>, g: SharingGroupId, id: SlotId, k: GroupKey, x: nat)
    requires HostedHandlesLive(handles, assignments)
    requires g in assignments && Hosts(assignments[g], id, k) && x in Handles(assignments[g].slots[id].subSlots[k])
    ensures x < |handles| && !handles[x].released
  {
  }

  /** A shared slot lives only while it hosts a live subtask. */
  lemma NoSharedSlotsWhenAllReleased(handles: seq<SlotRecord>, assignments: map<SharingGroupId, Assignment>, nextSlot: SlotId)
    requires AssignmentsWellformed(assignments, nextSlot) && HostedHandlesLive(handles, assignments)
    requires forall h :: 0 <= h < |handles| ==> handles[h].released
    ensures forall g :: g in assignments ==> assignments[g].slots == map[]
  {
    forall g | g in assignments ensures assignments[g].slots == map[] {
      var a := assignments[g];
      assert Wellformed(a);
      if id :| id in a.slots {
        var slot := a.slots[id];
        assert SlotFits(slot);
        var k :| k in slot.subSlots;
        assert SubSlotFits(k, slot.subSlots[k]);
        var x :| x in Handles(slot.subSlots[k]);
        assert Hosts(a, id, k);
        HostedIsLive(handles, assignments, g, id, k, x);
      }
    }
  }

  /** A well-formed assignment without shared slots offers no slot to anyone. */
  lemma EmptyAssignmentCounts(a: Assignment, key: GroupKey)
    requires Wellformed(a) && a.slots == map[]
    ensures NumberOfSlots(a) == 0 && NumberOfAvailableSlotsForGroup(a, key) == 0
  {
    NoMembersEmpty(a.order);
    NoneEligible(a, key);
  }

  lemma NoneEligible(a: Assignment, key: GroupKey)
    requires Wellformed(a) && a.slots == map[]
    ensures Eligible(a, key) == []
  {
    EligibleExactly(a, key);
    NoMembersEmpty(Eligible(a, key));
  }

  /** Once every granted slot is released, every raw slot is free again and
      no group holds a shared slot. */
  lemma AllReleasedAllFree(st: State)
    requires Inv(st)
    requires forall h :: 0 <= h < |st.handles| ==> st.handles[h].released
    ensures AvailableSlots(st) == TotalCapacity(st.instances)
    ensures forall g :: SlotsOfGroup(st, g) == 0
    ensures forall g, key :: NumberOfAvailableSlotsForGroup(AssignmentOf(st, g), key) == 0
  {
    NoSharedSlotsWhenAllReleased(st.handles, st.assignments, st.nextSlot);
    assert st.inUse == {} by {
      forall u | u in st.inUse ensures false {
        match u
        case SimpleUse(h) =>
        case SharedUse(g, id) =>
      }
    }
    forall g, key ensures NumberOfAvailableSlotsForGroup(AssignmentOf(st, g), key) == 0 {
      if g in st.assignments {
        EmptyAssignmentCounts(st.assignments[g], key);
      }
    }
    forall g ensures SlotsOfGroup(st, g) == 0 {
      if g in st.assignments {
        EmptyAssignmentCounts(st.assignments[g], VertexKey(0));
      }
    }
  }

  /** A group's slot count is the number of its live shared slots, and the
      count offered to a key is the number of them not hosting it. */
  lemma GroupSlotCounts(a: Assignment, key: GroupKey)
    requires Wellformed(a)
    ensures NumberOfSlots(a) == |a.slots.Keys|
    ensures NumberOfAvailableSlotsForGroup(a, key) == |(set id | id in a.slots && !Hosts(a, id, key))|
  {
    DistinctCardinality(a.order);
    assert Members(a.order) == a.slots.Keys;
    EligibleExactly(a, key);
    DistinctCardinality(Eligible(a, key));
    assert Members(Eligible(a, key)) == (set id | id in a.slots && !Hosts(a, id, key));
  }

  /** Releasing a slot a second time changes nothing. */
  lemma ReleaseTwice(st: State, h: nat)
    requires h < |st.handles|
    ensures Release(Release(st, h), h) == Release(st, h)
  {
    assert Release(st, h).handles[h].released;
  }

  /** A release gives back at most one raw slot and changes no location or counter. */
  lemma ReleaseReturnsAtMostOne(st: State, h: nat)
    requires h < |st.handles|
    ensures AvailableSlots(st) <= AvailableSlots(Release(st, h)) <= AvailableSlots(st) + 1
    ensures Release(st, h).bindings == st.bindings && Release(st, h).handles[h].released
    ensures Release(st, h).localized == st.localized && Release(st, h).nonLocalized == st.nonLocalized
    ensures Release(st, h).unconstrained == st.unconstrained
  {
  }

  /** A new instance adds its slots to the free ones; an instance already
      known is ignored, so registering twice is registering once. */
  lemma RegisterAddsSlots(st: State, inst: Instance)
    ensures !Registered(st.instances, inst.location) ==>
      && AvailableSlots(Register(st, inst)) == AvailableSlots(st) + inst.slots
      && TotalCapacity(Register(st, inst).instances) == TotalCapacity(st.instances) + inst.slots
    ensures Registered(st.instances, inst.location) ==> Register(st, inst) == st
    ensures Register(Register(st, inst), inst) == Register(st, inst)
  {
    if !Registered(st.instances, inst.location) {
      TotalCapacityAppend(st.instances, inst);
      var instances := st.instances + [inst];
      assert instances[|st.instances|].location == inst.location;
    }
  }

  // ---------------------------------------------------------------------------
  // The sharing group's own slots come first

  /**
   * A subtask without a located constraint, none of whose preferred locations
   * has a free raw slot, is put into a shared slot its group already has if
   * one is open to it, even a non-local one, rather than taking a raw slot.
   */
  lemma GroupSlotBeforeNonLocal(st: State, unit: ScheduledUnit, prefs: seq<Location>)
    requires Inv(st) && !unit.sharing.Unshared?
    requires unit.sharing.CoLocated? ==> unit.sharing.constraint !in st.bindings
    requires forall l :: l in prefs ==> l !in st.free
    requires exists id :: id in AssignmentOf(st, unit.sharing.group).slots
                           && !Hosts(AssignmentOf(st, unit.sharing.group), id, KeyFor(unit.vertex, if unit.sharing.CoLocated? then Some(unit.sharing.constraint) else None))
    ensures var o := Allocate(st, unit, prefs);
      o.result.Success? && o.state.free == st.free
  {
    var g := unit.sharing.group;
    var c := if unit.sharing.CoLocated? then Some(unit.sharing.constraint) else None;
    GroupSlotFirst(st, unit.vertex, g, c, prefs);
  }

  lemma GroupSlotFirst(st: State, v: VertexId, g: SharingGroupId, c: Option<Constraint>, prefs: seq<Location>)
    requires NestedSlotsBound(st.assignments, st.bindings, st.placement) && AssignmentsWellformed(st.assignments, st.nextSlot)
    requires c.Some? ==> c.value !in st.bindings
    requires forall l :: l in prefs ==> l !in st.free
    requires exists id :: id in AssignmentOf(st, g).slots && !Hosts(AssignmentOf(st, g), id, KeyFor(v, c))
    ensures var o := AllocateInGroup(st, v, g, c, prefs);
      o.result.Success? && o.state.free == st.free
  {
    assert Wanted(st, c, prefs) == prefs && !IsBound(st, c);
    GroupHasSlot(AssignmentOf(st, g), KeyFor(v, c), prefs);
    NoLocalFree(st.free, prefs);
    if c.Some? {
      UnboundNotJoined(st, v, g, c.value, prefs);
    }
    RefusedIffNoSlot(st, v, g, c, prefs);
    NotOpenKeepsFree(st, v, g, c, prefs);
  }

  lemma GroupHasSlot(a: Assignment, key: GroupKey, prefs: seq<Location>)
    requires Wellformed(a)
    requires exists id :: id in a.slots && !Hosts(a, id, key)
    ensures SharedSlotForTask(a, key, prefs, false).Some?
  {
    var id :| id in a.slots && !Hosts(a, id, key);
    EligibleExactly(a, key);
    SharedSlotForTaskSpec(a, key, prefs, false);
  }

  lemma NoLocalFree(free: seq<Location>, prefs: seq<Location>)
    requires forall l :: l in prefs ==> l !in free
    ensures var r := FindInstance(free, prefs, false); r.Some? ==> r.value.locality != Local
  {
    FindInstanceSpec(free, prefs, false);
  }

  lemma NotOpenKeepsFree(st: State, v: VertexId, g: SharingGroupId, c: Option<Constraint>, prefs: seq<Location>)
    requires !ChooseInGroup(st, v, g, c, prefs).OpenSharedSlot?
    ensures AllocateInGroup(st, v, g, c, prefs).state.free == st.free
  {
  }

}
