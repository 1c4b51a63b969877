/**
 * The scheduler as the tests drive it: one mutable object whose calls change
 * the free raw slots, the shared slots of each group, the locations of the
 * co-location constraints and the locality counters in place. Each call is
 * proved against the state function of the same name in `SchedulerState`.
 */
module Scheduling {
  import opened SchedulerTypes
  import opened SlotPool
  import opened SlotSharing
  import opened SchedulerState
  import opened SchedulerInvariant
  import opened SchedulerProperties

  class Scheduler {
    var instances: seq<Instance>
    var free: seq<Location>
    var inUse: set<RawUse>
    var handles: seq<SlotRecord>
    var assignments: map<SharingGroupId, Assignment>
    var bindings: map<Constraint, Location>
    var placement: map<Constraint, Placement>
    var nextSlot: SlotId
    var localized: nat
    var nonLocalized: nat
    var unconstrained: nat
    /** The calls made on this scheduler so far, oldest first. */
    ghost var calls: seq<Op>

    /** The fields of the scheduler as one value. */
    function St(): State
      reads this
    {
      State(instances, free, inUse, handles, assignments, bindings, placement, nextSlot, localized, nonLocalized, unconstrained)
    }

    /** The scheduler holds the state its calls produce from the empty scheduler. */
    ghost predicate Valid()
      reads this
    {
      AdmissibleRun(Initial, calls) && St() == Run(Initial, calls)
    }

    /** A state reached by calls keeps the invariant. */
    lemma ValidInv()
      requires Valid()
      ensures Inv(St())
    {
      InitialInv();
      RunInv(Initial, calls);
    }

    constructor ()
      ensures St() == Initial && Valid()
    {
      instances, free, inUse, handles := [], [], {}, [];
      assignments, bindings, placement := map[], map[], map[];
      nextSlot, localized, nonLocalized, unconstrained := 0, 0, 0, 0;
      calls := [];
      new;
      assert St() == Initial;
    }

    method Store(st: State)
      modifies this
      ensures St() == st && calls == old(calls)
    {
      instances := st.instances;
      free := st.free;
      inUse := st.inUse;
      handles := st.handles;
      assignments := st.assignments;
      bindings := st.bindings;
      placement := st.placement;
      nextSlot := st.nextSlot;
      localized := st.localized;
      nonLocalized := st.nonLocalized;
      unconstrained := st.unconstrained;
    }

    /** A new instance offers its slots; a known one is ignored. */
    method NewInstanceAvailable(inst: Instance)
      requires Valid()
      modifies this
      ensures St() == Register(old(St()), inst) && Valid() && calls == old(calls) + [NewInstance(inst)]
      ensures !Registered(old(instances), inst.location) ==> |free| == |old(free)| + inst.slots
    {
      RegisterAddsSlots(St(), inst);
      RunSnoc(Initial, calls, NewInstance(inst));
      Store(Register(St(), inst));
      calls := calls + [NewInstance(inst)];
    }

    /**
     * Allocate a slot for `unit` at once, or fail with no resource available.
     * A failure changes nothing; a success adds one slot record, bumps the
     * counter of its locality and never moves a located constraint.
     */
    method AllocateSlot(unit: ScheduledUnit, prefs: seq<Location>) returns (r: Result<LogicalSlot, SchedulingError>)
      requires Valid() && ConstraintInGroup(St(), unit)
      modifies this
      ensures St() == Allocate(old(St()), unit, prefs).state && r == Allocate(old(St()), unit, prefs).result
      ensures Valid()
      ensures r.Failure? ==> St() == old(St())
      ensures r.Success? ==> r.value.id == |old(handles)| && Counted(old(St()), St(), r.value.locality)
      ensures Extends(old(bindings), bindings) && calls == old(calls) + [AllocateUnit(unit, prefs)]
    {
      var st := St();
      ValidInv();
      AllocateCounts(st, unit, prefs);
      AllocateBinds(st, unit, prefs);
      RunSnoc(Initial, calls, AllocateUnit(unit, prefs));
      var o := Allocate(st, unit, prefs);
      Store(o.state);
      calls := calls + [AllocateUnit(unit, prefs)];
      r := o.result;
    }

    /** Release the slot granted as handle `h`; releasing it again does nothing. */
    method ReleaseSlot(h: nat)
      requires Valid() && h < |handles|
      modifies this
      ensures St() == Release(old(St()), h) && Valid()
      ensures |old(free)| <= |free| <= |old(free)| + 1
      ensures bindings == old(bindings) && handles[h].released && calls == old(calls) + [ReleaseHandle(h)]
    {
      ValidInv();
      ReleaseReturnsAtMostOne(St(), h);
      RunSnoc(Initial, calls, ReleaseHandle(h));
      Store(Release(St(), h));
      calls := calls + [ReleaseHandle(h)];
    }

    function NumberOfAvailableSlots(): nat
      reads this
    {
      |free|
    }

    function NumberOfLocalizedAssignments(): nat
      reads this
    {
      localized
    }

    function NumberOfNonLocalizedAssignments(): nat
      reads this
    {
      nonLocalized
    }

    function NumberOfUnconstrainedAssignments(): nat
      reads this
    {
      unconstrained
    }

    /** The number of shared slots group `g` holds. */
    function NumberOfSlots(g: SharingGroupId): nat
      reads this
    {
      SlotsOfGroup(St(), g)
    }

    /** The number of shared slots of group `g` a further subtask of vertex `v` may enter. */
    function NumberOfAvailableSlotsForGroup(g: SharingGroupId, v: VertexId): nat
      reads this
    {
      AvailableSlotsForVertex(St(), g, v)
    }

    /** The location constraint `c` is locked to, once it is. */
    function LocationOf(c: Constraint): Binding
      reads this
    {
      BindingOf(St(), c)
    }
  }
}
