/**
 * Every scheduler operation keeps the bookkeeping invariant `Inv`: raw slots
 * are either free or in use, each use is accounted for by a live slot record or
 * a live shared slot, every live subtask sits where its record says, every live
 * nested slot sits at its constraint's bound location, and every grant was
 * counted once.
 */
module SchedulerInvariant {
  import opened SchedulerTypes
  import opened SlotPool
  import opened SlotSharing
  import opened SchedulerState

  /** No shared slot holds a live nested slot of constraint `c`. */
  ghost predicate NoNestedOf(st: State, c: Constraint)
  {
    forall g, id, k :: g in st.assignments && Hosts(st.assignments[g], id, k) && st.assignments[g].slots[id].subSlots[k].CoLocationSlot? ==>
      st.assignments[g].slots[id].subSlots[k].constraint != c
  }

  /** A co-location constraint is used within one slot-sharing group only: the
      group of the unit is the group its constraint was first placed in. */
  predicate ConstraintInGroup(st: State, unit: ScheduledUnit)
  {
    unit.sharing.CoLocated? && unit.sharing.constraint in st.placement ==>
      st.placement[unit.sharing.constraint].group == unit.sharing.group
  }

  lemma InvCongruent(x: State, y: State)
    requires Inv(y) && x == y
    ensures Inv(x)
  {
  }

  lemma InitialInv()
    ensures Inv(Initial)
  {
  }

  // ---------------------------------------------------------------------------
  // Registering an instance

  lemma RegisterInv(st: State, inst: Instance)
    requires Inv(st)
    ensures Inv(Register(st, inst))
  {
    if !Registered(st.instances, inst.location) {
      TotalCapacityAppend(st.instances, inst);
    }
  }

  // ---------------------------------------------------------------------------
  // Granting a slot record

  lemma KeysMatchGrant(handles: seq<SlotRecord>, rec: SlotRecord)
    requires KeysMatchVertices(handles) && KeyMatches(rec)
    ensures KeysMatchVertices(handles + [rec])
  {
    assert forall h :: 0 <= h < |handles| ==> (handles + [rec])[h] == handles[h];
  }

  lemma KeysMatchRelease(handles: seq<SlotRecord>, h: nat)
    requires KeysMatchVertices(handles) && h < |handles|
    ensures KeysMatchVertices(handles[h := handles[h].(released := true)])
  {
  }

  /** A record for a slot in a group leaves the raw slots of plain subtasks as they were. */
  lemma SimpleUsesAfterSharedGrant(inUse: set<RawUse>, inUse': set<RawUse>, handles: seq<SlotRecord>, rec: SlotRecord)
    requires SimpleUsesExact(inUse, handles) && rec.owner.InShared?
    requires forall x: nat :: SimpleUse(x) in inUse' <==> SimpleUse(x) in inUse
    ensures SimpleUsesExact(inUse', handles + [rec])
  {
    var handles' := handles + [rec];
    forall x: nat ensures SimpleUse(x) in inUse' <==> x < |handles'| && handles'[x].owner == Simple && !handles'[x].released {
      if x < |handles| { assert handles'[x] == handles[x]; }
    }
  }

  /** Every sub-slot of `asg` is still there in `asg'`, at the same location,
      with at least the subtasks it had. */
  ghost predicate Keeps(asg: map<SharingGroupId, Assignment>, asg': map<SharingGroupId, Assignment>)
  {
    forall g, i, k :: g in asg && Hosts(asg[g], i, k) ==>
      && g in asg' && Hosts(asg'[g], i, k)
      && asg'[g].slots[i].location == asg[g].slots[i].location
      && Handles(asg[g].slots[i].subSlots[k]) <= Handles(asg'[g].slots[i].subSlots[k])
  }

  /** The only subtask `asg'` hosts beyond those of `asg` is `h`, in sub-slot `key` of slot `id` of group `g`. */
  ghost predicate AddsOnly(asg: map<SharingGroupId, Assignment>, asg': map<SharingGroupId, Assignment>,
                           g: SharingGroupId, id: SlotId, key: GroupKey, h: nat)
  {
    forall g', i, k, x :: g' in asg' && Hosts(asg'[g'], i, k) && x in Handles(asg'[g'].slots[i].subSlots[k]) ==>
      || (x == h && g' == g && i == id && k == key)
      || (g' in asg && Hosts(asg[g'], i, k) && x in Handles(asg[g'].slots[i].subSlots[k]))
  }

  /** Every sub-slot of `a` is still in `b`, at the same location, with at least its subtasks. */
  ghost predicate KeepsSlots(a: Assignment, b: Assignment)
  {
    forall i, k :: Hosts(a, i, k) ==>
      && Hosts(b, i, k)
      && b.slots[i].location == a.slots[i].location
      && Handles(a.slots[i].subSlots[k]) <= Handles(b.slots[i].subSlots[k])
  }

  lemma KeepsUpdate(asg: map<SharingGroupId, Assignment>, g: SharingGroupId, b: Assignment)
    requires KeepsSlots(if g in asg then asg[g] else EmptyAssignment, b)
    ensures Keeps(asg, asg[g := b])
  {
  }

  lemma SharedUsesUpdate(inUse: set<RawUse>, asg: map<SharingGroupId, Assignment>, g: SharingGroupId, b: Assignment)
    requires SharedUsesExact(inUse, asg) && g in asg && b.slots.Keys == asg[g].slots.Keys
    ensures SharedUsesExact(inUse, asg[g := b])
  {
  }

  lemma WellformedUpdate(asg: map<SharingGroupId, Assignment>, n: SlotId, g: SharingGroupId, b: Assignment)
    requires AssignmentsWellformed(asg, n) && Wellformed(b) && forall id :: id in b.slots ==> id < n
    ensures AssignmentsWellformed(asg[g := b], n)
  {
  }

  lemma PlacedAfterGrant(handles: seq<SlotRecord>, asg: map<SharingGroupId, Assignment>, asg': map<SharingGroupId, Assignment>, rec: SlotRecord)
    requires LiveHandlesPlaced(handles, asg) && Keeps(asg, asg')
    requires rec.owner.InShared? && Placed(rec, |handles|, asg')
    ensures LiveHandlesPlaced(handles + [rec], asg')
  {
    var handles' := handles + [rec];
    forall x | 0 <= x < |handles'| && handles'[x].owner.InShared? && !handles'[x].released ensures Placed(handles'[x], x, asg') {
      if x < |handles| {
        assert handles'[x] == handles[x];
        assert Placed(handles[x], x, asg);
      }
    }
  }

  lemma HostedAfterGrant(handles: seq<SlotRecord>, asg: map<SharingGroupId, Assignment>, asg': map<SharingGroupId, Assignment>,
                         g: SharingGroupId, id: SlotId, key: GroupKey, rec: SlotRecord)
    requires HostedHandlesLive(handles, asg) && AddsOnly(asg, asg', g, id, key, |handles|)
    requires rec.owner == InShared(g, id, key) && !rec.released
    ensures HostedHandlesLive(handles + [rec], asg')
  {
    var handles' := handles + [rec];
    forall g', i, k, x | g' in asg' && Hosts(asg'[g'], i, k) && x in Handles(asg'[g'].slots[i].subSlots[k])
      ensures x < |handles'| && !handles'[x].released && handles'[x].owner == InShared(g', i, k)
    {
      if x != |handles| {
        assert handles'[x] == handles[x];
      }
    }
  }

  // ---------------------------------------------------------------------------
  // Joining the live nested slot of a constraint

  lemma JoinShape(a: Assignment, id: SlotId, key: GroupKey, h: nat)
    requires id in a.slots && key in a.slots[id].subSlots && a.slots[id].subSlots[key].CoLocationSlot?
    ensures var b := JoinNested(a, id, key, h);
      && b.slots.Keys == a.slots.Keys
      && (forall i, k :: Hosts(b, i, k) <==> Hosts(a, i, k))
      && (forall i :: i in b.slots ==> b.slots[i].location == a.slots[i].location)
      && (forall i, k :: Hosts(a, i, k) ==> b.slots[i].subSlots[k].CoLocationSlot? == a.slots[i].subSlots[k].CoLocationSlot?)
      && (forall i, k :: Hosts(a, i, k) && a.slots[i].subSlots[k].CoLocationSlot? ==>
            b.slots[i].subSlots[k].constraint == a.slots[i].subSlots[k].constraint)
      && (forall i, k :: Hosts(a, i, k) && (i != id || k != key) ==> b.slots[i].subSlots[k] == a.slots[i].subSlots[k])
      && Handles(b.slots[id].subSlots[key]) == Handles(a.slots[id].subSlots[key]) + {h}
      && KeepsSlots(a, b)
  {
  }

  /** The group map after subtask `h` joins the live nested slot `id` of constraint `c`. */
  function Joined(st: State, g: SharingGroupId, c: Constraint, id: SlotId, h: nat): map<SharingGroupId, Assignment>
    requires NestedSlot(st, g, c) == Some(id)
  {
    st.assignments[g := JoinNested(AssignmentOf(st, g), id, CoLocationKey(c.group), h)]
  }

  lemma JoinedGroups(st: State, g: SharingGroupId, c: Constraint, id: SlotId, h: nat)
    requires NestedSlot(st, g, c) == Some(id)
    requires SharedUsesExact(st.inUse, st.assignments) && AssignmentsWellformed(st.assignments, st.nextSlot)
    ensures g in st.assignments
    ensures SharedUsesExact(st.inUse, Joined(st, g, c, id, h))
    ensures AssignmentsWellformed(Joined(st, g, c, id, h), st.nextSlot)
    ensures Keeps(st.assignments, Joined(st, g, c, id, h))
  {
    var a := AssignmentOf(st, g);
    var b := JoinNested(a, id, CoLocationKey(c.group), h);
    assert g in st.assignments;
    JoinNestedWellformed(a, id, CoLocationKey(c.group), h);
    JoinShape(a, id, CoLocationKey(c.group), h);
    SharedUsesUpdate(st.inUse, st.assignments, g, b);
    WellformedUpdate(st.assignments, st.nextSlot, g, b);
    KeepsUpdate(st.assignments, g, b);
  }

  lemma JoinedHosts(st: State, g: SharingGroupId, c: Constraint, id: SlotId, h: nat)
    requires NestedSlot(st, g, c) == Some(id)
    requires NestedSlotsBound(st.assignments, st.bindings, st.placement)
    ensures AddsOnly(st.assignments, Joined(st, g, c, id, h), g, id, CoLocationKey(c.group), h)
    ensures NestedSlotsBound(Joined(st, g, c, id, h), st.bindings, st.placement)
  {
    var a := AssignmentOf(st, g);
    assert g in st.assignments;
    JoinShape(a, id, CoLocationKey(c.group), h);
  }

  lemma JoinInv(st: State, v: VertexId, g: SharingGroupId, c: Constraint, id: SlotId)
    requires Inv(st) && NestedSlot(st, g, c) == Some(id)
    ensures Inv(JoinNestedOutcome(st, v, g, c, id).state)
  {
    var a := AssignmentOf(st, g);
    var key := CoLocationKey(c.group);
    var h := |st.handles|;
    var rec := SlotRecord(v, a.slots[id].location, InShared(g, id, key), false);
    var asg := Joined(st, g, c, id, h);
    JoinedGroups(st, g, c, id, h);
    JoinedHosts(st, g, c, id, h);
    SimpleUsesAfterSharedGrant(st.inUse, st.inUse, st.handles, rec);
    KeysMatchGrant(st.handles, rec);
    JoinShape(a, id, key, h);
    assert Placed(rec, h, asg);
    PlacedAfterGrant(st.handles, st.assignments, asg, rec);
    HostedAfterGrant(st.handles, st.assignments, asg, g, id, key, rec);
    var st2 := Grant(st.(assignments := asg), rec, Local).state;
    assert st2.handles == st.handles + [rec] && st2.assignments == asg && st2.inUse == st.inUse;
  }

  // ---------------------------------------------------------------------------
  // Opening a new sub-slot, in an existing shared slot or in a new one

  /** The only subtask `b` hosts beyond those of `a` is `h`, in sub-slot `key` of slot `id`. */
  ghost predicate AddsOnlyIn(a: Assignment, b: Assignment, id: SlotId, key: GroupKey, h: nat)
  {
    forall i, k, x :: Hosts(b, i, k) && x in Handles(b.slots[i].subSlots[k]) ==>
      (x == h && i == id && k == key) || (Hosts(a, i, k) && x in Handles(a.slots[i].subSlots[k]))
  }

  /** Every nested slot of `b` other than sub-slot `key` of slot `id` is one of `a`, unchanged and where it was. */
  ghost predicate NestedKeptIn(a: Assignment, b: Assignment, id: SlotId, key: GroupKey)
  {
    forall i, k :: Hosts(b, i, k) && b.slots[i].subSlots[k].CoLocationSlot? && (i != id || k != key) ==>
      && Hosts(a, i, k) && a.slots[i].subSlots[k].CoLocationSlot?
      && a.slots[i].subSlots[k].constraint == b.slots[i].subSlots[k].constraint
      && a.slots[i].location == b.slots[i].location
  }

  lemma AddsOnlyUpdate(asg: map<SharingGroupId, Assignment>, g: SharingGroupId, b: Assignment, id: SlotId, key: GroupKey, h: nat)
    requires AddsOnlyIn(if g in asg then asg[g] else EmptyAssignment, b, id, key, h)
    ensures AddsOnly(asg, asg[g := b], g, id, key, h)
  {
  }

  lemma AddToSlotShape(a: Assignment, id: SlotId, key: GroupKey, sub: SubSlot, h: nat)
    requires id in a.slots && !Hosts(a, id, key) && Handles(sub) == {h}
    ensures var b := AddToSlot(a, id, key, sub);
      && b.slots.Keys == a.slots.Keys
      && KeepsSlots(a, b) && AddsOnlyIn(a, b, id, key, h)
      && NestedKeptIn(a, b, id, key)
      && Hosts(b, id, key) && b.slots[id].subSlots[key] == sub && b.slots[id].location == a.slots[id].location
  {
  }

  lemma AddSlotShape(a: Assignment, id: SlotId, loc: Location, key: GroupKey, sub: SubSlot, h: nat)
    requires id !in a.slots && Handles(sub) == {h}
    ensures var b := AddSlot(a, id, loc, key, sub);
      && b.slots.Keys == a.slots.Keys + {id}
      && KeepsSlots(a, b) && AddsOnlyIn(a, b, id, key, h) && NestedKeptIn(a, b, id, key)
      && Hosts(b, id, key) && b.slots[id].subSlots[key] == sub && b.slots[id].location == loc
  {
  }

  /** A new sub-slot of constraint `c` (if any) at `loc` keeps every live nested
      slot at its constraint's bound location and placement. */
  lemma EnteredBound(st: State, g: SharingGroupId, b: Assignment, id: SlotId, key: GroupKey, c: Option<Constraint>, loc: Location, h: nat)
    requires NestedSlotsBound(st.assignments, st.bindings, st.placement)
    requires NestedKeptIn(AssignmentOf(st, g), b, id, key)
    requires Hosts(b, id, key) && b.slots[id].subSlots[key] == NewSubSlot(c, h) && b.slots[id].location == loc
    requires c.Some? ==> NoNestedOf(st, c.value) && (c.value in st.bindings ==> st.bindings[c.value] == loc)
    ensures var st3 := Locate(st.(assignments := st.assignments[g := b]), c, loc, g, id);
      NestedSlotsBound(st3.assignments, st3.bindings, st3.placement)
  {
    var st3 := Locate(st.(assignments := st.assignments[g := b]), c, loc, g, id);
    assert forall c' :: c' in st.bindings ==> c' in st3.bindings && st3.bindings[c'] == st.bindings[c'];
    forall g', i, k | g' in st3.assignments && Hosts(st3.assignments[g'], i, k) && st3.assignments[g'].slots[i].subSlots[k].CoLocationSlot?
      ensures var c' := st3.assignments[g'].slots[i].subSlots[k].constraint;
        && c' in st3.bindings && st3.bindings[c'] == st3.assignments[g'].slots[i].location
        && c' in st3.placement && st3.placement[c'] == Placement(g', i)
    {
      if g' == g && i == id && k == key {
      } else {
        assert g' in st.assignments && Hosts(st.assignments[g'], i, k);
      }
    }
  }

  /**
   * Granting a new sub-slot `key` of slot `id` in group `g` to a subtask keeps
   * the invariant, whatever else the step did to the pool, provided the step
   * kept the raw-slot accounting and the group's bookkeeping.
   */
  lemma EnterInv(st: State, st1: State, v: VertexId, g: SharingGroupId, c: Option<Constraint>, id: SlotId, loc: Location,
                 b: Assignment, locality: Locality)
    requires Inv(st)
    requires st1.instances == st.instances && st1.handles == st.handles
    requires st1.bindings == st.bindings && st1.placement == st.placement
    requires st1.localized == st.localized && st1.nonLocalized == st.nonLocalized && st1.unconstrained == st.unconstrained
    requires st1.assignments == st.assignments[g := b]
    requires |st1.free| + |st1.inUse| == |st.free| + |st.inUse|
    requires forall x: nat :: SimpleUse(x) in st1.inUse <==> SimpleUse(x) in st.inUse
    requires SharedUsesExact(st1.inUse, st1.assignments) && AssignmentsWellformed(st1.assignments, st1.nextSlot)
    requires KeepsSlots(AssignmentOf(st, g), b) && AddsOnlyIn(AssignmentOf(st, g), b, id, KeyFor(v, c), |st.handles|)
    requires NestedKeptIn(AssignmentOf(st, g), b, id, KeyFor(v, c))
    requires Hosts(b, id, KeyFor(v, c)) && b.slots[id].subSlots[KeyFor(v, c)] == NewSubSlot(c, |st.handles|) && b.slots[id].location == loc
    requires c.Some? ==> NoNestedOf(st, c.value) && (c.value in st.bindings ==> st.bindings[c.value] == loc)
    ensures Inv(Grant(Locate(st1, c, loc, g, id), SlotRecord(v, loc, InShared(g, id, KeyFor(v, c)), false), locality).state)
  {
    var key := KeyFor(v, c);
    var h := |st.handles|;
    var rec := SlotRecord(v, loc, InShared(g, id, key), false);
    var asg := st.assignments[g := b];
    KeepsUpdate(st.assignments, g, b);
    AddsOnlyUpdate(st.assignments, g, b, id, key, h);
    SimpleUsesAfterSharedGrant(st.inUse, st1.inUse, st.handles, rec);
    KeysMatchGrant(st.handles, rec);
    assert Placed(rec, h, asg);
    PlacedAfterGrant(st.handles, st.assignments, asg, rec);
    HostedAfterGrant(st.handles, st.assignments, asg, g, id, key, rec);
    EnteredBound(st, g, b, id, key, c, loc, h);
    var st3 := Locate(st1, c, loc, g, id);
    var st4 := Locate(st.(assignments := asg), c, loc, g, id);
    assert st3.bindings == st4.bindings && st3.placement == st4.placement && st3.assignments == asg;
    var st2 := Grant(st3, rec, locality).state;
    assert st2.handles == st.handles + [rec] && st2.assignments == asg && st2.inUse == st1.inUse;
  }

  lemma NewSubSlotFits(v: VertexId, c: Option<Constraint>, h: nat)
    ensures SubSlotFits(KeyFor(v, c), NewSubSlot(c, h)) && Handles(NewSubSlot(c, h)) == {h}
  {
  }

  lemma IntoSharedSlotInv(st: State, v: VertexId, g: SharingGroupId, c: Option<Constraint>, id: SlotId, locality: Locality)
    requires Inv(st) && id in AssignmentOf(st, g).slots && !Hosts(AssignmentOf(st, g), id, KeyFor(v, c))
    requires c.Some? ==> (NoNestedOf(st, c.value) &&
      (c.value in st.bindings ==> st.bindings[c.value] == AssignmentOf(st, g).slots[id].location))
    ensures Inv(IntoSharedSlot(st, v, g, c, id, locality).state)
  {
    var a := AssignmentOf(st, g);
    var key := KeyFor(v, c);
    var h := |st.handles|;
    var sub := NewSubSlot(c, h);
    var b := AddToSlot(a, id, key, sub);
    assert g in st.assignments;
    NewSubSlotFits(v, c, h);
    AddToSlotShape(a, id, key, sub, h);
    AddToSlotWellformed(a, id, key, sub);
    SharedUsesUpdate(st.inUse, st.assignments, g, b);
    WellformedUpdate(st.assignments, st.nextSlot, g, b);
    var st1 := st.(assignments := st.assignments[g := b]);
    EnterInv(st, st1, v, g, c, id, a.slots[id].location, b, locality);
  }

  lemma SharedUsesAdd(inUse: set<RawUse>, asg: map<SharingGroupId, Assignment>, g: SharingGroupId, b: Assignment, id: SlotId)
    requires SharedUsesExact(inUse, asg)
    requires b.slots.Keys == (if g in asg then asg[g] else EmptyAssignment).slots.Keys + {id}
    ensures SharedUsesExact(inUse + {SharedUse(g, id)}, asg[g := b])
  {
  }

  lemma WellformedAdd(asg: map<SharingGroupId, Assignment>, n: SlotId, g: SharingGroupId, b: Assignment)
    requires AssignmentsWellformed(asg, n) && Wellformed(b) && forall id :: id in b.slots ==> id <= n
    ensures AssignmentsWellformed(asg[g := b], n + 1)
  {
  }

  lemma PickSize(p: InstancePick, free: seq<Location>)
    requires multiset(p.rest) + multiset{p.location} == multiset(free)
    ensures |p.rest| + 1 == |free|
  {
    assert |multiset(p.rest) + multiset{p.location}| == |multiset(free)|;
  }

  /** The next slot id is not in use by any group. */
  lemma FreshSlotId(st: State, g: SharingGroupId)
    requires AssignmentsWellformed(st.assignments, st.nextSlot) && SharedUsesExact(st.inUse, st.assignments)
    ensures st.nextSlot !in AssignmentOf(st, g).slots && SharedUse(g, st.nextSlot) !in st.inUse
  {
  }

  /** Taking raw slot `p` for a new shared slot keeps the raw slots accounted. */
  lemma NewSlotPool(st: State, g: SharingGroupId, p: InstancePick)
    requires multiset(p.rest) + multiset{p.location} == multiset(st.free)
    requires AssignmentsWellformed(st.assignments, st.nextSlot) && SharedUsesExact(st.inUse, st.assignments)
    ensures |p.rest| + |st.inUse + {SharedUse(g, st.nextSlot)}| == |st.free| + |st.inUse|
    ensures forall x: nat :: SimpleUse(x) in st.inUse + {SharedUse(g, st.nextSlot)} <==> SimpleUse(x) in st.inUse
  {
    PickSize(p, st.free);
    FreshSlotId(st, g);
  }

  /** A new shared slot with the next slot id keeps the groups well formed. */
  lemma NewSlotGroups(st: State, v: VertexId, g: SharingGroupId, c: Option<Constraint>, loc: Location)
    requires AssignmentsWellformed(st.assignments, st.nextSlot) && SharedUsesExact(st.inUse, st.assignments)
    ensures var b := AddSlot(AssignmentOf(st, g), st.nextSlot, loc, KeyFor(v, c), NewSubSlot(c, |st.handles|));
      && SharedUsesExact(st.inUse + {SharedUse(g, st.nextSlot)}, st.assignments[g := b])
      && AssignmentsWellformed(st.assignments[g := b], st.nextSlot + 1)
      && KeepsSlots(AssignmentOf(st, g), b) && AddsOnlyIn(AssignmentOf(st, g), b, st.nextSlot, KeyFor(v, c), |st.handles|)
      && NestedKeptIn(AssignmentOf(st, g), b, st.nextSlot, KeyFor(v, c))
      && Hosts(b, st.nextSlot, KeyFor(v, c)) && b.slots[st.nextSlot].subSlots[KeyFor(v, c)] == NewSubSlot(c, |st.handles|)
      && b.slots[st.nextSlot].location == loc
  {
    NewSlotGroupsWellformed(st, v, g, c, loc);
    NewSlotGroupsShape(st, v, g, c, loc);
  }

  lemma NewSlotGroupsWellformed(st: State, v: VertexId, g: SharingGroupId, c: Option<Constraint>, loc: Location)
    requires AssignmentsWellformed(st.assignments, st.nextSlot) && SharedUsesExact(st.inUse, st.assignments)
    ensures var b := AddSlot(AssignmentOf(st, g), st.nextSlot, loc, KeyFor(v, c), NewSubSlot(c, |st.handles|));
      && SharedUsesExact(st.inUse + {SharedUse(g, st.nextSlot)}, st.assignments[g := b])
      && AssignmentsWellformed(st.assignments[g := b], st.nextSlot + 1)
  {
    var b := AddSlot(AssignmentOf(st, g), st.nextSlot, loc, KeyFor(v, c), NewSubSlot(c, |st.handles|));
    GroupWellformed(st.assignments, st.nextSlot, g);
    NewSubSlotFits(v, c, |st.handles|);
    AddSlotBelow(AssignmentOf(st, g), st.nextSlot, loc, KeyFor(v, c), NewSubSlot(c, |st.handles|));
    SharedUsesAdd(st.inUse, st.assignments, g, b, st.nextSlot);
    WellformedAdd(st.assignments, st.nextSlot, g, b);
  }

  /** The assignment of any group, present or not, is well formed below the next slot id. */
  lemma GroupWellformed(asg: map<SharingGroupId, Assignment>, n: SlotId, g: SharingGroupId)
    requires AssignmentsWellformed(asg, n)
    ensures var a := if g in asg then asg[g] else EmptyAssignment;
      Wellformed(a) && forall i :: i in a.slots ==> i < n
  {
  }

  /** A slot with a fresh id keeps an assignment well formed, its ids at most that id. */
  lemma AddSlotBelow(a: Assignment, id: SlotId, loc: Location, key: GroupKey, sub: SubSlot)
    requires Wellformed(a) && (forall i :: i in a.slots ==> i < id) && SubSlotFits(key, sub)
    ensures var b := AddSlot(a, id, loc, key, sub);
      Wellformed(b) && (forall i :: i in b.slots ==> i <= id) && b.slots.Keys == a.slots.Keys + {id}
  {
    AddSlotWellformed(a, id, loc, key, sub);
  }

  lemma NewSlotGroupsShape(st: State, v: VertexId, g: SharingGroupId, c: Option<Constraint>, loc: Location)
    requires AssignmentsWellformed(st.assignments, st.nextSlot) && SharedUsesExact(st.inUse, st.assignments)
    ensures var b := AddSlot(AssignmentOf(st, g), st.nextSlot, loc, KeyFor(v, c), NewSubSlot(c, |st.handles|));
      && KeepsSlots(AssignmentOf(st, g), b) && AddsOnlyIn(AssignmentOf(st, g), b, st.nextSlot, KeyFor(v, c), |st.handles|)
      && NestedKeptIn(AssignmentOf(st, g), b, st.nextSlot, KeyFor(v, c))
      && Hosts(b, st.nextSlot, KeyFor(v, c)) && b.slots[st.nextSlot].subSlots[KeyFor(v, c)] == NewSubSlot(c, |st.handles|)
      && b.slots[st.nextSlot].location == loc
  {
    var a := AssignmentOf(st, g);
    var id := st.nextSlot;
    FreshSlotId(st, g);
    NewSubSlotFits(v, c, |st.handles|);
    AddSlotShape(a, id, loc, KeyFor(v, c), NewSubSlot(c, |st.handles|), |st.handles|);
  }

  lemma IntoNewSlotInv(st: State, v: VertexId, g: SharingGroupId, c: Option<Constraint>, p: InstancePick)
    requires Inv(st) && multiset(p.rest) + multiset{p.location} == multiset(st.free)
    requires c.Some? ==> NoNestedOf(st, c.value) && (c.value in st.bindings ==> st.bindings[c.value] == p.location)
    ensures Inv(IntoNewSlot(st, v, g, c, p).state)
  {
    var id := st.nextSlot;
    var b := AddSlot(AssignmentOf(st, g), id, p.location, KeyFor(v, c), NewSubSlot(c, |st.handles|));
    NewSlotPool(st, g, p);
    NewSlotGroups(st, v, g, c, p.location);
    var st1 := st.(free := p.rest, inUse := st.inUse + {SharedUse(g, id)}, nextSlot := id + 1,
                   assignments := st.assignments[g := b]);
    EnterInv(st, st1, v, g, c, id, p.location, b, p.locality);
    IntoNewSlotUnfold(st, v, g, c, p, st1);
  }

  lemma IntoNewSlotUnfold(st: State, v: VertexId, g: SharingGroupId, c: Option<Constraint>, p: InstancePick, st1: State)
    requires st1 == st.(free := p.rest, inUse := st.inUse + {SharedUse(g, st.nextSlot)}, nextSlot := st.nextSlot + 1,
                        assignments := st.assignments[g := AddSlot(AssignmentOf(st, g), st.nextSlot, p.location, KeyFor(v, c), NewSubSlot(c, |st.handles|))])
    ensures IntoNewSlot(st, v, g, c, p)
         == Grant(Locate(st1, c, p.location, g, st.nextSlot), SlotRecord(v, p.location, InShared(g, st.nextSlot, KeyFor(v, c)), false), p.locality)
  {
  }

  // ---------------------------------------------------------------------------
  // A raw slot of its own

  lemma SimpleGrantUses(inUse: set<RawUse>, handles: seq<SlotRecord>, rec: SlotRecord)
    requires SimpleUsesExact(inUse, handles) && rec.owner == Simple && !rec.released
    ensures SimpleUse(|handles|) !in inUse
    ensures SimpleUsesExact(inUse + {SimpleUse(|handles|)}, handles + [rec])
  {
    var handles' := handles + [rec];
    forall x: nat
      ensures SimpleUse(x) in inUse + {SimpleUse(|handles|)} <==> x < |handles'| && handles'[x].owner == Simple && !handles'[x].released
    {
      if x < |handles| {
        assert handles'[x] == handles[x];
      }
    }
  }

  lemma SimpleGrantGroups(inUse: set<RawUse>, handles: seq<SlotRecord>, asg: map<SharingGroupId, Assignment>, rec: SlotRecord)
    requires SharedUsesExact(inUse, asg) && LiveHandlesPlaced(handles, asg) && HostedHandlesLive(handles, asg)
    requires rec.owner == Simple
    ensures SharedUsesExact(inUse + {SimpleUse(|handles|)}, asg)
    ensures LiveHandlesPlaced(handles + [rec], asg) && HostedHandlesLive(handles + [rec], asg)
  {
    var handles' := handles + [rec];
    forall h | 0 <= h < |handles'| && handles'[h].owner.InShared? && !handles'[h].released
      ensures Placed(handles'[h], h, asg)
    {
      assert handles'[h] == handles[h];
    }
    forall g, id, k, h | g in asg && Hosts(asg[g], id, k) && h in Handles(asg[g].slots[id].subSlots[k])
      ensures h < |handles'| && !handles'[h].released && handles'[h].owner == InShared(g, id, k)
    {
      assert handles'[h] == handles[h];
    }
  }

  lemma AllocateUnsharedInv(st: State, v: VertexId, prefs: seq<Location>)
    requires Inv(st)
    ensures Inv(AllocateUnshared(st, v, prefs).state)
  {
    FindInstanceSpec(st.free, prefs, false);
    match FindInstance(st.free, prefs, false)
    case None =>
    case Some(p) =>
      var rec := SlotRecord(v, p.location, Simple, false);
      PickSize(p, st.free);
      KeysMatchGrant(st.handles, rec);
      SimpleGrantUses(st.inUse, st.handles, rec);
      SimpleGrantGroups(st.inUse, st.handles, st.assignments, rec);
  }

  // ---------------------------------------------------------------------------
  // A subtask of a group

  /** Without a live nested slot where its placement points, a constraint has none anywhere. */
  lemma NoNestedWhenNone(st: State, g: SharingGroupId, c: Constraint)
    requires NestedSlotsBound(st.assignments, st.bindings, st.placement) && AssignmentsWellformed(st.assignments, st.nextSlot)
    requires NestedSlot(st, g, c) == None
    requires c in st.placement ==> st.placement[c].group == g
    ensures NoNestedOf(st, c)
  {
    forall g', id, k | g' in st.assignments && Hosts(st.assignments[g'], id, k) && st.assignments[g'].slots[id].subSlots[k].CoLocationSlot?
      ensures st.assignments[g'].slots[id].subSlots[k].constraint != c
    {
      var sub := st.assignments[g'].slots[id].subSlots[k];
      assert SubSlotFits(k, sub);
    }
  }

  /** Where each choice in a group comes from. */
  lemma ChooseInGroupCases(st: State, v: VertexId, g: SharingGroupId, c: Option<Constraint>, prefs: seq<Location>)
    ensures var r := ChooseInGroup(st, v, g, c, prefs);
      var fromGroup := SharedSlotForTask(AssignmentOf(st, g), KeyFor(v, c), Wanted(st, c, prefs), IsBound(st, c));
      && (!r.JoinNestedSlot? && c.Some? ==> NestedSlot(st, g, c.value) == None)
      && (r.UseSharedSlot? ==> fromGroup == Some(GroupPick(r.slot, r.locality)))
      && (r.OpenSharedSlot? ==> FindInstance(st.free, Wanted(st, c, prefs), IsBound(st, c)) == Some(r.pick))
      && (r.NoSlot? ==> fromGroup.None? && FindInstance(st.free, Wanted(st, c, prefs), IsBound(st, c)).None?)
  {
  }

  /** What the choice in a group guarantees of the slot it takes, as the
      invariant lemmas of the ways in need it. */
  lemma ChooseInGroupAdmissible(st: State, v: VertexId, g: SharingGroupId, c: Option<Constraint>, prefs: seq<Location>)
    requires NestedSlotsBound(st.assignments, st.bindings, st.placement) && AssignmentsWellformed(st.assignments, st.nextSlot)
    requires c.Some? && c.value in st.placement ==> st.placement[c.value].group == g
    ensures var r := ChooseInGroup(st, v, g, c, prefs); var a := AssignmentOf(st, g);
      && (r.UseSharedSlot? ==> !Hosts(a, r.slot, KeyFor(v, c)))
      && (r.UseSharedSlot? && c.Some? ==> (NoNestedOf(st, c.value) &&
            (c.value in st.bindings ==> st.bindings[c.value] == a.slots[r.slot].location)))
      && (r.OpenSharedSlot? ==> multiset(r.pick.rest) + multiset{r.pick.location} == multiset(st.free))
      && (r.OpenSharedSlot? && c.Some? ==> (NoNestedOf(st, c.value) &&
            (c.value in st.bindings ==> st.bindings[c.value] == r.pick.location)))
  {
    var a := AssignmentOf(st, g);
    var key := KeyFor(v, c);
    var wanted := Wanted(st, c, prefs);
    var bound := IsBound(st, c);
    var r := ChooseInGroup(st, v, g, c, prefs);
    ChooseInGroupCases(st, v, g, c, prefs);
    if !r.JoinNestedSlot? && c.Some? {
      NoNestedWhenNone(st, g, c.value);
    }
    if r.UseSharedSlot? {
      assert Wellformed(a);
      EligibleExactly(a, key);
      SharedSlotForTaskSpec(a, key, wanted, bound);
    } else if r.OpenSharedSlot? {
      FindInstanceSpec(st.free, wanted, bound);
    }
  }

  lemma AllocateInGroupInv(st: State, v: VertexId, g: SharingGroupId, c: Option<Constraint>, prefs: seq<Location>)
    requires Inv(st)
    requires c.Some? && c.value in st.placement ==> st.placement[c.value].group == g
    ensures Inv(AllocateInGroup(st, v, g, c, prefs).state)
  {
    ChooseInGroupAdmissible(st, v, g, c, prefs);
    match ChooseInGroup(st, v, g, c, prefs)
    case JoinNestedSlot(id) => JoinInv(st, v, g, c.value, id);
    case UseSharedSlot(id, locality) => IntoSharedSlotInv(st, v, g, c, id, locality);
    case OpenSharedSlot(p) => IntoNewSlotInv(st, v, g, c, p);
    case NoSlot =>
  }

  lemma AllocateInv(st: State, unit: ScheduledUnit, prefs: seq<Location>)
    requires Inv(st) && ConstraintInGroup(st, unit)
    ensures Inv(Allocate(st, unit, prefs).state)
  {
    match unit.sharing
    case Unshared => AllocateUnsharedInv(st, unit.vertex, prefs);
    case Shared(g) => AllocateInGroupInv(st, unit.vertex, g, None, prefs);
    case CoLocated(g, c) => AllocateInGroupInv(st, unit.vertex, g, Some(c), prefs);
  }

  // ---------------------------------------------------------------------------
  // Releasing a slot

  /** `b` hosts what `a` hosted, where it was, less subtask `h` and nothing else. */
  ghost predicate Releases(a: Assignment, b: Assignment, h: nat)
  {
    && (forall i, k :: Hosts(b, i, k) ==>
          && Hosts(a, i, k) && b.slots[i].location == a.slots[i].location
          && b.slots[i].subSlots[k].CoLocationSlot? == a.slots[i].subSlots[k].CoLocationSlot?
          && (b.slots[i].subSlots[k].CoLocationSlot? ==> b.slots[i].subSlots[k].constraint == a.slots[i].subSlots[k].constraint)
          && Handles(b.slots[i].subSlots[k]) <= Handles(a.slots[i].subSlots[k]) - {h})
    && (forall i, k, x :: Hosts(a, i, k) && x in Handles(a.slots[i].subSlots[k]) && x != h ==>
          Hosts(b, i, k) && x in Handles(b.slots[i].subSlots[k]))
  }

  /** Every group of `asg'` hosts what it hosted in `asg`, less subtask `h`. */
  ghost predicate ReleasesAll(asg: map<SharingGroupId, Assignment>, asg': map<SharingGroupId, Assignment>, h: nat)
  {
    asg'.Keys == asg.Keys && forall g :: g in asg ==> Releases(asg[g], asg'[g], h)
  }

  /** Subtask `h` is hosted nowhere in `a` but possibly in sub-slot `key` of slot `id`. */
  ghost predicate HostedOnlyAt(a: Assignment, id: SlotId, key: GroupKey, h: nat)
  {
    forall i, k :: Hosts(a, i, k) && h in Handles(a.slots[i].subSlots[k]) ==> i == id && k == key
  }

  lemma ReleaseSubShape(a: Assignment, id: SlotId, key: GroupKey, h: nat)
    requires Hosts(a, id, key) && h in Handles(a.slots[id].subSlots[key]) && HostedOnlyAt(a, id, key, h)
    ensures Releases(a, ReleaseSub(a, id, key, h).assignment, h)
  {
    var slot := a.slots[id];
    var sub := slot.subSlots[key];
    if sub.CoLocationSlot? && sub.handles - {h} != {} {
      ShrinkShape(a, id, key, h);
    } else if (slot.subSlots - {key}).Keys == {} {
      DisposeShape(a, id, key, h);
    } else {
      DropShape(a, id, key, h);
    }
  }

  lemma ShrinkShape(a: Assignment, id: SlotId, key: GroupKey, h: nat)
    requires Hosts(a, id, key) && HostedOnlyAt(a, id, key, h)
    requires a.slots[id].subSlots[key].CoLocationSlot?
    ensures var slot := a.slots[id]; var sub := slot.subSlots[key];
      Releases(a, a.(slots := a.slots[id := slot.(subSlots := slot.subSlots[key := sub.(handles := sub.handles - {h})])]), h)
  {
  }

  lemma DisposeShape(a: Assignment, id: SlotId, key: GroupKey, h: nat)
    requires Hosts(a, id, key) && HostedOnlyAt(a, id, key, h) && (a.slots[id].subSlots - {key}).Keys == {}
    requires Handles(a.slots[id].subSlots[key]) <= {h}
    ensures Releases(a, Dispose(a, id), h)
  {
    var b := Dispose(a, id);
    forall i, k, x | Hosts(a, i, k) && x in Handles(a.slots[i].subSlots[k]) && x != h
      ensures Hosts(b, i, k) && x in Handles(b.slots[i].subSlots[k])
    {
      if i == id {
        assert k in a.slots[id].subSlots - {key} by { assert k != key; }
      }
    }
  }

  lemma DropShape(a: Assignment, id: SlotId, key: GroupKey, h: nat)
    requires Hosts(a, id, key) && HostedOnlyAt(a, id, key, h)
    requires Handles(a.slots[id].subSlots[key]) <= {h}
    ensures var slot := a.slots[id];
      Releases(a, a.(slots := a.slots[id := slot.(subSlots := slot.subSlots - {key})],
                     available := a.available[key := Eligible(a, key) + [id]]), h)
  {
  }

  lemma ReleasesUntouched(a: Assignment, h: nat)
    requires forall i, k :: Hosts(a, i, k) ==> h !in Handles(a.slots[i].subSlots[k])
    ensures Releases(a, a, h)
  {
  }

  lemma ReleasesAllUpdate(asg: map<SharingGroupId, Assignment>, g: SharingGroupId, b: Assignment, h: nat)
    requires g in asg && Releases(asg[g], b, h)
    requires forall g', i, k :: g' in asg && g' != g && Hosts(asg[g'], i, k) ==> h !in Handles(asg[g'].slots[i].subSlots[k])
    ensures ReleasesAll(asg, asg[g := b], h)
  {
    forall g' | g' in asg && g' != g ensures Releases(asg[g'], asg[g'], h) {
      ReleasesUntouched(asg[g'], h);
    }
  }

  lemma ReleasedPlaced(handles: seq<SlotRecord>, asg: map<SharingGroupId, Assignment>, asg': map<SharingGroupId, Assignment>, h: nat)
    requires LiveHandlesPlaced(handles, asg) && ReleasesAll(asg, asg', h) && h < |handles|
    ensures LiveHandlesPlaced(handles[h := handles[h].(released := true)], asg')
  {
    var handles' := handles[h := handles[h].(released := true)];
    forall x | 0 <= x < |handles'| && handles'[x].owner.InShared? && !handles'[x].released ensures Placed(handles'[x], x, asg') {
      assert handles'[x] == handles[x];
      assert Placed(handles[x], x, asg);
    }
  }

  lemma ReleasedHosted(handles: seq<SlotRecord>, asg: map<SharingGroupId, Assignment>, asg': map<SharingGroupId, Assignment>, h: nat)
    requires HostedHandlesLive(handles, asg) && ReleasesAll(asg, asg', h) && h < |handles|
    ensures HostedHandlesLive(handles[h := handles[h].(released := true)], asg')
  {
    var handles' := handles[h := handles[h].(released := true)];
    forall g, i, k, x | g in asg' && Hosts(asg'[g], i, k) && x in Handles(asg'[g].slots[i].subSlots[k])
      ensures x < |handles'| && !handles'[x].released && handles'[x].owner == InShared(g, i, k)
    {
      assert Hosts(asg[g], i, k) && x in Handles(asg[g].slots[i].subSlots[k]) && x != h;
      assert handles'[x] == handles[x];
    }
  }

  lemma ReleasedBound(asg: map<SharingGroupId, Assignment>, asg': map<SharingGroupId, Assignment>, h: nat,
                      bindings: map<Constraint, Location>, placement: map<Constraint, Placement>)
    requires NestedSlotsBound(asg, bindings, placement) && ReleasesAll(asg, asg', h)
    ensures NestedSlotsBound(asg', bindings, placement)
  {
    forall g, i, k | g in asg' && Hosts(asg'[g], i, k) && asg'[g].slots[i].subSlots[k].CoLocationSlot?
      ensures var c := asg'[g].slots[i].subSlots[k].constraint;
        && c in bindings && bindings[c] == asg'[g].slots[i].location
        && c in placement && placement[c] == Placement(g, i)
    {
      assert Hosts(asg[g], i, k);
    }
  }

  /**
   * A release that marks record `h` released, takes subtask `h` out of the
   * groups and nothing more, and keeps the raw slots accounted, keeps the
   * invariant.
   */
  lemma ReleasedInv(st: State, st': State, h: nat)
    requires Inv(st) && h < |st.handles|
    requires st'.handles == st.handles[h := st.handles[h].(released := true)]
    requires st'.instances == st.instances && st'.bindings == st.bindings && st'.placement == st.placement
    requires st'.localized == st.localized && st'.nonLocalized == st.nonLocalized && st'.unconstrained == st.unconstrained
    requires |st'.free| + |st'.inUse| == |st.free| + |st.inUse|
    requires SimpleUsesExact(st'.inUse, st'.handles) && SharedUsesExact(st'.inUse, st'.assignments)
    requires AssignmentsWellformed(st'.assignments, st'.nextSlot)
    requires ReleasesAll(st.assignments, st'.assignments, h)
    ensures Inv(st')
  {
    KeysMatchRelease(st.handles, h);
    ReleasedPlaced(st.handles, st.assignments, st'.assignments, h);
    ReleasedHosted(st.handles, st.assignments, st'.assignments, h);
    ReleasedBound(st.assignments, st'.assignments, h, st.bindings, st.placement);
  }

  lemma SimpleUsesReleased(inUse: set<RawUse>, inUse': set<RawUse>, handles: seq<SlotRecord>, h: nat)
    requires SimpleUsesExact(inUse, handles) && h < |handles|
    requires handles[h].owner == Simple ==> inUse' == inUse - {SimpleUse(h)}
    requires handles[h].owner.InShared? ==> forall x: nat :: SimpleUse(x) in inUse' <==> SimpleUse(x) in inUse
    ensures SimpleUsesExact(inUse', handles[h := handles[h].(released := true)])
  {
  }

  lemma SharedUsesReleased(inUse: set<RawUse>, asg: map<SharingGroupId, Assignment>, h: nat)
    requires SharedUsesExact(inUse, asg)
    ensures SharedUsesExact(inUse - {SimpleUse(h)}, asg)
  {
  }

  /** A subtask with a raw slot of its own is in no group. */
  lemma SimpleNotHosted(handles: seq<SlotRecord>, asg: map<SharingGroupId, Assignment>, h: nat)
    requires HostedHandlesLive(handles, asg) && h < |handles| && handles[h].owner == Simple
    ensures ReleasesAll(asg, asg, h)
  {
    forall g | g in asg ensures Releases(asg[g], asg[g], h) {
      ReleasesUntouched(asg[g], h);
    }
  }

  /** The state after record `h`, a raw slot of its own, is released. */
  function SimpleReleased(st: State, h: nat): State
    requires h < |st.handles|
  {
    st.(handles := st.handles[h := st.handles[h].(released := true)],
        free := st.free + [st.handles[h].location], inUse := st.inUse - {SimpleUse(h)})
  }

  lemma ReleaseSimpleInv(st: State, h: nat)
    requires Inv(st) && h < |st.handles| && !st.handles[h].released && st.handles[h].owner == Simple
    ensures Inv(SimpleReleased(st, h))
  {
    var st' := SimpleReleased(st, h);
    assert SimpleUse(h) in st.inUse;
    SimpleUsesReleased(st.inUse, st'.inUse, st.handles, h);
    SharedUsesReleased(st.inUse, st.assignments, h);
    SimpleNotHosted(st.handles, st.assignments, h);
    ReleasedInv(st, st', h);
  }

  /** The state after record `h`, subtask of sub-slot `key` of slot `id` of group `g`, is released. */
  function SharedReleased(st: State, h: nat, g: SharingGroupId, id: SlotId, key: GroupKey): State
    requires h < |st.handles| && g in st.assignments && Hosts(st.assignments[g], id, key)
  {
    var r := ReleaseSub(st.assignments[g], id, key, h);
    st.(handles := st.handles[h := st.handles[h].(released := true)],
        assignments := st.assignments[g := r.assignment],
        free := if r.disposed then st.free + [st.assignments[g].slots[id].location] else st.free,
        inUse := if r.disposed then st.inUse - {SharedUse(g, id)} else st.inUse)
  }

  /** Subtask `h` is hosted nowhere in `asg` but possibly in sub-slot `key` of slot `id` of group `g`. */
  ghost predicate HostedOnlyIn(asg: map<SharingGroupId, Assignment>, g: SharingGroupId, id: SlotId, key: GroupKey, h: nat)
  {
    forall g', i, k :: g' in asg && Hosts(asg[g'], i, k) && h in Handles(asg[g'].slots[i].subSlots[k]) ==>
      g' == g && i == id && k == key
  }

  /** Releasing a subtask from its sub-slot takes it out of the groups and nothing more. */
  lemma SharedReleasedGroups(asg: map<SharingGroupId, Assignment>, n: SlotId, h: nat, g: SharingGroupId, id: SlotId, key: GroupKey)
    requires g in asg && Hosts(asg[g], id, key) && h in Handles(asg[g].slots[id].subSlots[key])
    requires HostedOnlyIn(asg, g, id, key, h) && AssignmentsWellformed(asg, n)
    ensures var b := ReleaseSub(asg[g], id, key, h).assignment;
      && ReleasesAll(asg, asg[g := b], h) && AssignmentsWellformed(asg[g := b], n)
  {
    var a := asg[g];
    var b := ReleaseSub(a, id, key, h).assignment;
    assert HostedOnlyAt(a, id, key, h);
    ReleaseSubShape(a, id, key, h);
    ReleasesAllUpdate(asg, g, b, h);
    ReleaseSubWellformed(a, id, key, h);
    WellformedUpdate(asg, n, g, b);
  }

  /** Releasing a subtask from its sub-slot keeps the raw slots accounted. */
  lemma SharedReleasedUses(st: State, h: nat, g: SharingGroupId, id: SlotId, key: GroupKey)
    requires h < |st.handles| && st.handles[h].owner == InShared(g, id, key)
    requires g in st.assignments && Hosts(st.assignments[g], id, key)
    requires SimpleUsesExact(st.inUse, st.handles) && SharedUsesExact(st.inUse, st.assignments)
    ensures var st' := SharedReleased(st, h, g, id, key);
      && |st'.free| + |st'.inUse| == |st.free| + |st.inUse|
      && SimpleUsesExact(st'.inUse, st'.handles) && SharedUsesExact(st'.inUse, st'.assignments)
  {
    var a := st.assignments[g];
    var r := ReleaseSub(a, id, key, h);
    var st' := SharedReleased(st, h, g, id, key);
    ReleaseSubWellformedKeys(a, id, key, h);
    if r.disposed {
      assert SharedUse(g, id) in st.inUse;
      SharedUsesDispose(st.inUse, st.assignments, g, id, r.assignment);
    } else {
      SharedUsesUpdate(st.inUse, st.assignments, g, r.assignment);
    }
    SimpleUsesReleased(st.inUse, st'.inUse, st.handles, h);
  }

  /** A live subtask in a group is hosted where its record says, and nowhere else. */
  lemma LiveSubtaskHosted(handles: seq<SlotRecord>, asg: map<SharingGroupId, Assignment>, h: nat)
    requires LiveHandlesPlaced(handles, asg) && HostedHandlesLive(handles, asg)
    requires h < |handles| && !handles[h].released && handles[h].owner.InShared?
    ensures var o := handles[h].owner;
      && o.group in asg && Hosts(asg[o.group], o.slot, o.key) && h in Handles(asg[o.group].slots[o.slot].subSlots[o.key])
      && HostedOnlyIn(asg, o.group, o.slot, o.key, h)
  {
    assert Placed(handles[h], h, asg);
  }

  lemma ReleaseSharedInv(st: State, h: nat, g: SharingGroupId, id: SlotId, key: GroupKey)
    requires Inv(st) && h < |st.handles| && !st.handles[h].released && st.handles[h].owner == InShared(g, id, key)
    ensures g in st.assignments && Hosts(st.assignments[g], id, key)
    ensures Inv(SharedReleased(st, h, g, id, key))
  {
    LiveSubtaskHosted(st.handles, st.assignments, h);
    SharedReleasedGroups(st.assignments, st.nextSlot, h, g, id, key);
    SharedReleasedUses(st, h, g, id, key);
    ReleasedInv(st, SharedReleased(st, h, g, id, key), h);
  }

  lemma SharedUsesDispose(inUse: set<RawUse>, asg: map<SharingGroupId, Assignment>, g: SharingGroupId, id: SlotId, b: Assignment)
    requires SharedUsesExact(inUse, asg) && g in asg && b.slots == asg[g].slots - {id}
    ensures SharedUsesExact(inUse - {SharedUse(g, id)}, asg[g := b])
  {
  }

  lemma ReleaseInv(st: State, h: nat)
    requires Inv(st) && h < |st.handles|
    ensures Inv(Release(st, h))
  {
    var rec := st.handles[h];
    if !rec.released {
      match rec.owner
      case Simple =>
        ReleaseSimpleInv(st, h);
        assert Release(st, h) == SimpleReleased(st, h);
      case InShared(g, id, key) =>
        ReleaseSharedInv(st, h, g, id, key);
        assert Release(st, h) == SharedReleased(st, h, g, id, key);
    }
  }
}
