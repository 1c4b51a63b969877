/**
 * The state of the slot scheduler as a value, and what each scheduler
 * operation does to it.
 *
 * The scheduler owns the raw slots of the registered TaskManager instances.
 * A subtask without a slot-sharing group takes a raw slot of its own; a subtask
 * of a slot-sharing group enters a shared slot of that group's assignment, and
 * a shared slot holds one raw slot for as long as it hosts anything. Every
 * successful allocation leaves a slot record behind; its index is the handle
 * the caller releases.
 */
module SchedulerState {
  import opened SchedulerTypes
  import opened SlotPool
  import opened SlotSharing

  /** Who holds the raw slot behind a slot record. */
  datatype Owner = Simple | InShared(group: SharingGroupId, slot: SlotId, key: GroupKey)

  datatype SlotRecord = SlotRecord(vertex: VertexId, location: Location, owner: Owner, released: bool)

  /** A raw slot in use: by one subtask, or by a shared slot of a group. */
  datatype RawUse = SimpleUse(handle: nat) | SharedUse(group: SharingGroupId, slot: SlotId)

  /** Where the nested slot of a co-location constraint was last opened. */
  datatype Placement = Placement(group: SharingGroupId, slot: SlotId)

  /**
   * `free`: the free raw slots, by location, in the order they are handed out;
   * `inUse`: the raw slots taken; `handles`: one record per granted slot;
   * `bindings`: the location each co-location constraint is locked to;
   * `localized`, `nonLocalized`, `unconstrained`: the locality counters.
   */
  datatype State = State(
    instances: seq<Instance>,
    free: seq<Location>,
    inUse: set<RawUse>,
    handles: seq<SlotRecord>,
    assignments: map<SharingGroupId, Assignment>,
    bindings: map<Constraint, Location>,
    placement: map<Constraint, Placement>,
    nextSlot: SlotId,
    localized: nat,
    nonLocalized: nat,
    unconstrained: nat)

  const Initial := State([], [], {}, [], map[], map[], map[], 0, 0, 0, 0)

  // ---------------------------------------------------------------------------
  // Observers

  function AvailableSlots(st: State): nat
  {
    |st.free|
  }

  function AssignmentOf(st: State, g: SharingGroupId): Assignment
  {
    if g in st.assignments then st.assignments[g] else EmptyAssignment
  }

  function SlotsOfGroup(st: State, g: SharingGroupId): nat
  {
    NumberOfSlots(AssignmentOf(st, g))
  }

  function AvailableSlotsForVertex(st: State, g: SharingGroupId, v: VertexId): nat
  {
    NumberOfAvailableSlotsForGroup(AssignmentOf(st, g), VertexKey(v))
  }

  function BindingOf(st: State, c: Constraint): Binding
  {
    if c in st.bindings then Resolved(st.bindings[c]) else Unresolved
  }

  // ---------------------------------------------------------------------------
  // The invariant

  /** Every raw slot of every instance is either free or in use. */
  ghost predicate CapacityAccounted(st: State)
  {
    |st.free| + |st.inUse| == TotalCapacity(st.instances)
  }

  /** A subtask outside any group holds a raw slot exactly while its record is live. */
  ghost predicate SimpleUsesExact(inUse: set<RawUse>, handles: seq<SlotRecord>)
  {
    forall h: nat :: SimpleUse(h) in inUse <==> h < |handles| && handles[h].owner == Simple && !handles[h].released
  }

  /** A shared slot holds a raw slot exactly while it is live. */
  ghost predicate SharedUsesExact(inUse: set<RawUse>, assignments: map<SharingGroupId, Assignment>)
  {
    forall g, id :: SharedUse(g, id) in inUse <==> g in assignments && id in assignments[g].slots
  }

  /** Every assignment is well formed and its slot ids were all handed out. */
  ghost predicate AssignmentsWellformed(assignments: map<SharingGroupId, Assignment>, nextSlot: SlotId)
  {
    forall g :: g in assignments ==>
      Wellformed(assignments[g]) && forall id :: id in assignments[g].slots ==> id < nextSlot
  }

  /** The sub-slot a record in a group points at hosts it, at its location. */
  ghost predicate Placed(rec: SlotRecord, h: nat, assignments: map<SharingGroupId, Assignment>)
    requires rec.owner.InShared?
  {
    var o := rec.owner;
    && o.group in assignments
    && Hosts(assignments[o.group], o.slot, o.key)
    && h in Handles(assignments[o.group].slots[o.slot].subSlots[o.key])
    && rec.location == assignments[o.group].slots[o.slot].location
  }

  ghost predicate LiveHandlesPlaced(handles: seq<SlotRecord>, assignments: map<SharingGroupId, Assignment>)
  {
    forall h :: 0 <= h < |handles| && handles[h].owner.InShared? && !handles[h].released ==> Placed(handles[h], h, assignments)
  }

  /** Every subtask hosted by a sub-slot has a live record pointing back at it. */
  ghost predicate HostedHandlesLive(handles: seq<SlotRecord>, assignments: map<SharingGroupId, Assignment>)
  {
    forall g, id, k, h ::
      g in assignments && Hosts(assignments[g], id, k) && h in Handles(assignments[g].slots[id].subSlots[k]) ==>
        h < |handles| && !handles[h].released && handles[h].owner == InShared(g, id, k)
  }

  /** A live nested slot sits at its constraint's bound location, where the
      constraint's placement says. */
  ghost predicate NestedSlotsBound(assignments: map<SharingGroupId, Assignment>, bindings: map<Constraint, Location>,
                                   placement: map<Constraint, Placement>)
  {
    forall g, id, k ::
      g in assignments && Hosts(assignments[g], id, k) && assignments[g].slots[id].subSlots[k].CoLocationSlot? ==>
        var c := assignments[g].slots[id].subSlots[k].constraint;
        && c in bindings && bindings[c] == assignments[g].slots[id].location
        && c in placement && placement[c] == Placement(g, id)
  }

  /** Every granted slot was counted exactly once. */
  ghost predicate CountersAccounted(localized: nat, nonLocalized: nat, unconstrained: nat, handles: seq<SlotRecord>)
  {
    localized + nonLocalized + unconstrained == |handles|
  }

  /** A subtask without constraint holds the sub-slot keyed by its own vertex. */
  predicate KeyMatches(rec: SlotRecord)
  {
    rec.owner.InShared? && rec.owner.key.VertexKey? ==> rec.owner.key.vertex == rec.vertex
  }

  ghost predicate KeysMatchVertices(handles: seq<SlotRecord>)
  {
    forall h :: 0 <= h < |handles| ==> KeyMatches(handles[h])
  }

  ghost predicate Inv(st: State)
  {
    && CapacityAccounted(st)
    && SimpleUsesExact(st.inUse, st.handles)
    && SharedUsesExact(st.inUse, st.assignments)
    && AssignmentsWellformed(st.assignments, st.nextSlot)
    && LiveHandlesPlaced(st.handles, st.assignments)
    && HostedHandlesLive(st.handles, st.assignments)
    && NestedSlotsBound(st.assignments, st.bindings, st.placement)
    && CountersAccounted(st.localized, st.nonLocalized, st.unconstrained, st.handles)
    && KeysMatchVertices(st.handles)
  }

  // ---------------------------------------------------------------------------
  // Registering an instance

  /** A new instance brings its slots to the end of the free pool; an instance
      already registered changes nothing. */
  function Register(st: State, inst: Instance): State
  {
    if Registered(st.instances, inst.location) then st
    else st.(instances := st.instances + [inst], free := st.free + FreshSlots(inst.location, inst.slots))
  }

  // ---------------------------------------------------------------------------
  // Allocating a slot

  datatype Outcome = Outcome(state: State, result: Result<LogicalSlot, SchedulingError>)

  function Bump(st: State, locality: Locality): State
  {
    match locality
    case Local => st.(localized := st.localized + 1)
    case NonLocal => st.(nonLocalized := st.nonLocalized + 1)
    case Unconstrained => st.(unconstrained := st.unconstrained + 1)
  }

  /** Record a granted slot and count its locality. */
  function Grant(st: State, rec: SlotRecord, locality: Locality): Outcome
  {
    Outcome(Bump(st.(handles := st.handles + [rec]), locality),
            Success(LogicalSlot(|st.handles|, rec.location, locality)))
  }

  function Refuse(st: State): Outcome
  {
    Outcome(st, Failure(NoResourceAvailable))
  }

  /** A subtask outside any slot-sharing group takes a raw slot of its own. */
  function AllocateUnshared(st: State, v: VertexId, prefs: seq<Location>): Outcome
  {
    match FindInstance(st.free, prefs, false)
    case None => Refuse(st)
    case Some(p) =>
      Grant(st.(free := p.rest, inUse := st.inUse + {SimpleUse(|st.handles|)}),
            SlotRecord(v, p.location, Simple, false), p.locality)
  }

  /** The key a subtask uses inside its group's shared slots. */
  function KeyFor(v: VertexId, c: Option<Constraint>): GroupKey
  {
    if c.Some? then CoLocationKey(c.value.group) else VertexKey(v)
  }

  /** The live nested slot of constraint `c` in group `g`, if there is one. */
  function NestedSlot(st: State, g: SharingGroupId, c: Constraint): (r: Option<SlotId>)
    ensures r.Some? ==> Hosts(AssignmentOf(st, g), r.value, CoLocationKey(c.group))
    ensures r.Some? ==> AssignmentOf(st, g).slots[r.value].subSlots[CoLocationKey(c.group)].CoLocationSlot?
    ensures r.Some? ==> AssignmentOf(st, g).slots[r.value].subSlots[CoLocationKey(c.group)].constraint == c
  {
    if c in st.placement && st.placement[c].group == g then
      var id := st.placement[c].slot;
      var a := AssignmentOf(st, g);
      var key := CoLocationKey(c.group);
      if Hosts(a, id, key) && a.slots[id].subSlots[key].CoLocationSlot? && a.slots[id].subSlots[key].constraint == c then Some(id)
      else None
    else None
  }

  /** Lock an unbound constraint to the location its first slot was granted at,
      and remember where its nested slot is. */
  function Locate(st: State, c: Option<Constraint>, loc: Location, g: SharingGroupId, id: SlotId): State
  {
    if c.None? then st
    else st.(bindings := if c.value in st.bindings then st.bindings else st.bindings[c.value := loc],
             placement := st.placement[c.value := Placement(g, id)])
  }

  /** The first sub-slot of a subtask: its own, or a new nested slot of its constraint. */
  function NewSubSlot(c: Option<Constraint>, h: nat): SubSlot
  {
    if c.Some? then CoLocationSlot(c.value, {h}) else TaskSlot(h)
  }

  /** A further subtask of constraint `c` joins its live nested slot `id`; it is local by definition. */
  function JoinNestedOutcome(st: State, v: VertexId, g: SharingGroupId, c: Constraint, id: SlotId): Outcome
    requires NestedSlot(st, g, c) == Some(id)
  {
    var a := AssignmentOf(st, g);
    var key := CoLocationKey(c.group);
    Grant(st.(assignments := st.assignments[g := JoinNested(a, id, key, |st.handles|)]),
          SlotRecord(v, a.slots[id].location, InShared(g, id, key), false), Local)
  }

  /** Enter the existing shared slot `id` of group `g`. */
  function IntoSharedSlot(st: State, v: VertexId, g: SharingGroupId, c: Option<Constraint>, id: SlotId, locality: Locality): Outcome
    requires id in AssignmentOf(st, g).slots
  {
    var a := AssignmentOf(st, g);
    var h := |st.handles|;
    var key := KeyFor(v, c);
    var loc := a.slots[id].location;
    Grant(Locate(st.(assignments := st.assignments[g := AddToSlot(a, id, key, NewSubSlot(c, h))]), c, loc, g, id),
          SlotRecord(v, loc, InShared(g, id, key), false), locality)
  }

  /** Open a new shared slot of group `g` on a raw slot taken from the pool. */
  function IntoNewSlot(st: State, v: VertexId, g: SharingGroupId, c: Option<Constraint>, p: InstancePick): Outcome
  {
    var a := AssignmentOf(st, g);
    var h := |st.handles|;
    var key := KeyFor(v, c);
    var id := st.nextSlot;
    Grant(Locate(st.(free := p.rest, inUse := st.inUse + {SharedUse(g, id)}, nextSlot := id + 1,
                     assignments := st.assignments[g := AddSlot(a, id, p.location, key, NewSubSlot(c, h))]), c, p.location, g, id),
          SlotRecord(v, p.location, InShared(g, id, key), false), p.locality)
  }

  /** Whether `c` is a constraint already locked to a location. */
  predicate IsBound(st: State, c: Option<Constraint>)
  {
    c.Some? && c.value in st.bindings
  }

  /** The locations a subtask asks for: its constraint's location once bound,
      its own preferences otherwise. */
  function Wanted(st: State, c: Option<Constraint>, prefs: seq<Location>): seq<Location>
  {
    if IsBound(st, c) then [st.bindings[c.value]] else prefs
  }

  /** Where a subtask of a group goes: into the live nested slot of its
      constraint, into a shared slot the group already has, into a new shared
      slot on a raw slot taken from the pool, or nowhere. */
  datatype GroupChoice =
    | JoinNestedSlot(slot: SlotId)
    | UseSharedSlot(slot: SlotId, locality: Locality)
    | OpenSharedSlot(pick: InstancePick)
    | NoSlot

  /**
   * The choice for a subtask of group `g`, bound by constraint `c` if there is
   * one. A live nested slot of the constraint is joined outright. Otherwise a
   * slot of the group that is local, or unconstrained, is used; failing that a
   * new raw slot is taken when it is local or when the group has nothing, and
   * the group's non-local slot is preferred to a non-local new one. A bound
   * constraint turns the preferences into its location and admits local slots
   * only.
   */
  function ChooseInGroup(st: State, v: VertexId, g: SharingGroupId, c: Option<Constraint>, prefs: seq<Location>): (r: GroupChoice)
    ensures r.JoinNestedSlot? ==> c.Some? && NestedSlot(st, g, c.value) == Some(r.slot)
    ensures r.UseSharedSlot? ==> r.slot in AssignmentOf(st, g).slots
  {
    var nested := if c.Some? then NestedSlot(st, g, c.value) else None;
    if nested.Some? then JoinNestedSlot(nested.value)
    else
      var fromGroup := SharedSlotForTask(AssignmentOf(st, g), KeyFor(v, c), Wanted(st, c, prefs), IsBound(st, c));
      if fromGroup.Some? && fromGroup.value.locality != NonLocal then UseSharedSlot(fromGroup.value.slot, fromGroup.value.locality)
      else match FindInstance(st.free, Wanted(st, c, prefs), IsBound(st, c))
        case None =>
          if fromGroup.None? then NoSlot
          else UseSharedSlot(fromGroup.value.slot, fromGroup.value.locality)
        case Some(p) =>
          if fromGroup.None? || p.locality == Local then OpenSharedSlot(p)
          else UseSharedSlot(fromGroup.value.slot, fromGroup.value.locality)
  }

  /** A subtask of group `g`, bound by constraint `c` if there is one, goes where
      `ChooseInGroup` says. */
  function AllocateInGroup(st: State, v: VertexId, g: SharingGroupId, c: Option<Constraint>, prefs: seq<Location>): Outcome
  {
    match ChooseInGroup(st, v, g, c, prefs)
    case JoinNestedSlot(id) => JoinNestedOutcome(st, v, g, c.value, id)
    case UseSharedSlot(id, locality) => IntoSharedSlot(st, v, g, c, id, locality)
    case OpenSharedSlot(p) => IntoNewSlot(st, v, g, c, p)
    case NoSlot => Refuse(st)
  }

  /** Allocate a slot for `unit` without queuing. */
  function Allocate(st: State, unit: ScheduledUnit, prefs: seq<Location>): Outcome
  {
    match unit.sharing
    case Unshared => AllocateUnshared(st, unit.vertex, prefs)
    case Shared(g) => AllocateInGroup(st, unit.vertex, g, None, prefs)
    case CoLocated(g, c) => AllocateInGroup(st, unit.vertex, g, Some(c), prefs)
  }

  // ---------------------------------------------------------------------------
  // Releasing a slot

  /**
   * Release the slot granted as handle `h`. A record already released changes
   * nothing. A raw slot of its own goes back to the pool; a subtask in a shared
   * slot leaves it, and a shared slot left empty gives its raw slot back.
   */
  function Release(st: State, h: nat): State
    requires h < |st.handles|
  {
    var rec := st.handles[h];
    if rec.released then st
    else
      var st1 := st.(handles := st.handles[h := rec.(released := true)]);
      match rec.owner
      case Simple => st1.(free := st.free + [rec.location], inUse := st.inUse - {SimpleUse(h)})
      case InShared(g, id, key) =>
        var a := AssignmentOf(st, g);
        if Hosts(a, id, key) then
          var r := ReleaseSub(a, id, key, h);
          if r.disposed then
            st1.(assignments := st.assignments[g := r.assignment], free := st.free + [a.slots[id].location],
                 inUse := st.inUse - {SharedUse(g, id)})
          else st1.(assignments := st.assignments[g := r.assignment])
        else st1
  }
}
