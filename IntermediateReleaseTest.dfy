/** A constraint keeps its location after all its subtasks are released: a later subtask of it returns there. */
module IntermediateReleaseTest {
  import opened SchedulerTypes
  import opened SlotPool
  import opened SlotSharing
  import opened SchedulerState
  import opened Scheduling

  predicate Pool0(st: State)
  {
    && st.instances == []
    && st.free == []
    && st.handles == []
    && st.nextSlot == 0
    && st.localized == 0
    && st.nonLocalized == 0
    && st.unconstrained == 0
  }

  predicate Sharing0(st: State)
  {
    && st.assignments.Keys == {}
  }

  predicate Bound0(st: State)
  {
    && st.bindings.Keys == {}
    && st.placement.Keys == {}
  }

  predicate After0(st: State)
  {
    Pool0(st) && Sharing0(st) && Bound0(st)
  }

  lemma Step0()
    ensures After0(Initial)
  {
  }

  predicate Pool1(st: State)
  {
    && st.instances == [Instance(1, 1)]
    && st.free == [1]
    && st.handles == []
    && st.nextSlot == 0
    && st.localized == 0
    && st.nonLocalized == 0
    && st.unconstrained == 0
  }

  predicate Sharing1(st: State)
  {
    && st.assignments.Keys == {}
  }

  predicate Bound1(st: State)
  {
    && st.bindings.Keys == {}
    && st.placement.Keys == {}
  }

  predicate After1(st: State)
  {
    Pool1(st) && Sharing1(st) && Bound1(st)
  }

  lemma Step1(st: State)
    requires After0(st)
    ensures After1(Register(st, Instance(1, 1)))
  {
  }

  method Call1(scheduler: Scheduler)
    requires scheduler.Valid() && After0(scheduler.St())
    modifies scheduler
    ensures scheduler.Valid() && After1(scheduler.St())
  {
    ghost var st := scheduler.St();
    scheduler.NewInstanceAvailable(Instance(1, 1));
    Step1(st);
  }

  predicate Pool2(st: State)
  {
    && st.instances == [Instance(1, 1), Instance(2, 1)]
    && st.free == [1, 2]
    && st.handles == []
    && st.nextSlot == 0
    && st.localized == 0
    && st.nonLocalized == 0
    && st.unconstrained == 0
  }

  predicate Sharing2(st: State)
  {
    && st.assignments.Keys == {}
  }

  predicate Bound2(st: State)
  {
    && st.bindings.Keys == {}
    && st.placement.Keys == {}
  }

  predicate After2(st: State)
  {
    Pool2(st) && Sharing2(st) && Bound2(st)
  }

  lemma Step2(st: State)
    requires After1(st)
    ensures After2(Register(st, Instance(2, 1)))
  {
  }

  method Call2(scheduler: Scheduler)
    requires scheduler.Valid() && After1(scheduler.St())
    modifies scheduler
    ensures scheduler.Valid() && After2(scheduler.St())
  {
    ghost var st := scheduler.St();
    scheduler.NewInstanceAvailable(Instance(2, 1));
    Step2(st);
  }

  predicate Pool3(st: State)
  {
    && st.instances == [Instance(1, 1), Instance(2, 1)]
    && st.free == [2]
    && st.handles == [SlotRecord(1, 1, InShared(0, 0, CoLocationKey(0)), false)]
    && st.nextSlot == 1
    && st.localized == 0
    && st.nonLocalized == 0
    && st.unconstrained == 1
  }

  predicate Sharing3(st: State)
  {
    && st.assignments.Keys == {0}
    && st.assignments[0].slots.Keys == {0}
    && st.assignments[0].slots[0].location == 1
    && st.assignments[0].slots[0].subSlots.Keys == {CoLocationKey(0)}
    && st.assignments[0].slots[0].subSlots[CoLocationKey(0)].CoLocationSlot?
    && st.assignments[0].slots[0].subSlots[CoLocationKey(0)].constraint == Constraint(0, 0)
    && st.assignments[0].slots[0].subSlots[CoLocationKey(0)].handles == {0}
    && st.assignments[0].order == [0]
    && st.assignments[0].available.Keys == {CoLocationKey(0)}
    && st.assignments[0].available[CoLocationKey(0)] == []
  }

  predicate Bound3(st: State)
  {
    && st.bindings.Keys == {Constraint(0, 0)}
    && st.bindings[Constraint(0, 0)] == 1
    && st.placement.Keys == {Constraint(0, 0)}
    && st.placement[Constraint(0, 0)] == Placement(0, 0)
  }

  predicate After3(st: State)
  {
    Pool3(st) && Sharing3(st) && Bound3(st)
  }

  lemma Step3Choice(st: State)
    requires After2(st)
    ensures ChooseInGroup(st, 1, 0, Some(Constraint(0, 0)), []) == OpenSharedSlot(InstancePick(1, Unconstrained, [2]))
  {
  }

  lemma Step3Pool(st: State)
    requires After2(st) && ChooseInGroup(st, 1, 0, Some(Constraint(0, 0)), []) == OpenSharedSlot(InstancePick(1, Unconstrained, [2]))
    ensures Pool3(IntoNewSlot(st, 1, 0, Some(Constraint(0, 0)), InstancePick(1, Unconstrained, [2])).state)
    ensures IntoNewSlot(st, 1, 0, Some(Constraint(0, 0)), InstancePick(1, Unconstrained, [2])).result == Success(LogicalSlot(0, 1, Unconstrained))
  {
  }

  lemma Step3Sharing(st: State)
    requires After2(st) && ChooseInGroup(st, 1, 0, Some(Constraint(0, 0)), []) == OpenSharedSlot(InstancePick(1, Unconstrained, [2]))
    ensures Sharing3(IntoNewSlot(st, 1, 0, Some(Constraint(0, 0)), InstancePick(1, Unconstrained, [2])).state)
  {
  }

  lemma Step3Bound(st: State)
    requires After2(st) && ChooseInGroup(st, 1, 0, Some(Constraint(0, 0)), []) == OpenSharedSlot(InstancePick(1, Unconstrained, [2]))
    ensures Bound3(IntoNewSlot(st, 1, 0, Some(Constraint(0, 0)), InstancePick(1, Unconstrained, [2])).state)
  {
  }

  lemma Step3(st: State)
    requires After2(st)
    ensures After3(Allocate(st, ScheduledUnit(1, CoLocated(0, Constraint(0, 0))), []).state)
    ensures Allocate(st, ScheduledUnit(1, CoLocated(0, Constraint(0, 0))), []).result == Success(LogicalSlot(0, 1, Unconstrained))
  {
    Step3Choice(st);
    Step3Pool(st);
    Step3Sharing(st);
    Step3Bound(st);
  }

  method Call3(scheduler: Scheduler) returns (r: Result<LogicalSlot, SchedulingError>)
    requires scheduler.Valid() && After2(scheduler.St())
    modifies scheduler
    ensures scheduler.Valid() && After3(scheduler.St()) && r == Success(LogicalSlot(0, 1, Unconstrained))
  {
    ghost var st := scheduler.St();
    r := scheduler.AllocateSlot(ScheduledUnit(1, CoLocated(0, Constraint(0, 0))), []);
    Step3(st);
  }

  predicate Pool4(st: State)
  {
    && st.instances == [Instance(1, 1), Instance(2, 1)]
    && st.free == [2]
    && st.handles == [SlotRecord(1, 1, InShared(0, 0, CoLocationKey(0)), false), SlotRecord(2, 1, InShared(0, 0, CoLocationKey(0)), false)]
    && st.nextSlot == 1
    && st.localized == 1
    && st.nonLocalized == 0
    && st.unconstrained == 1
  }

  predicate Sharing4(st: State)
  {
    && st.assignments.Keys == {0}
    && st.assignments[0].slots.Keys == {0}
    && st.assignments[0].slots[0].location == 1
    && st.assignments[0].slots[0].subSlots.Keys == {CoLocationKey(0)}
    && st.assignments[0].slots[0].subSlots[CoLocationKey(0)].CoLocationSlot?
    && st.assignments[0].slots[0].subSlots[CoLocationKey(0)].constraint == Constraint(0, 0)
    && st.assignments[0].slots[0].subSlots[CoLocationKey(0)].handles == {0, 1}
    && st.assignments[0].order == [0]
    && st.assignments[0].available.Keys == {CoLocationKey(0)}
    && st.assignments[0].available[CoLocationKey(0)] == []
  }

  predicate Bound4(st: State)
  {
    && st.bindings.Keys == {Constraint(0, 0)}
    && st.bindings[Constraint(0, 0)] == 1
    && st.placement.Keys == {Constraint(0, 0)}
    && st.placement[Constraint(0, 0)] == Placement(0, 0)
  }

  predicate After4(st: State)
  {
    Pool4(st) && Sharing4(st) && Bound4(st)
  }

  lemma Step4Choice(st: State)
    requires After3(st)
    ensures ChooseInGroup(st, 2, 0, Some(Constraint(0, 0)), []) == JoinNestedSlot(0)
  {
    assert FirstPreferredFree([2], [1]) == None;
  }

  lemma Step4Pool(st: State)
    requires After3(st) && ChooseInGroup(st, 2, 0, Some(Constraint(0, 0)), []) == JoinNestedSlot(0)
    ensures Pool4(JoinNestedOutcome(st, 2, 0, Constraint(0, 0), 0).state)
    ensures JoinNestedOutcome(st, 2, 0, Constraint(0, 0), 0).result == Success(LogicalSlot(1, 1, Local))
  {
  }

  lemma Step4Sharing(st: State)
    requires After3(st) && ChooseInGroup(st, 2, 0, Some(Constraint(0, 0)), []) == JoinNestedSlot(0)
    ensures Sharing4(JoinNestedOutcome(st, 2, 0, Constraint(0, 0), 0).state)
  {
  }

  lemma Step4Bound(st: State)
    requires After3(st) && ChooseInGroup(st, 2, 0, Some(Constraint(0, 0)), []) == JoinNestedSlot(0)
    ensures Bound4(JoinNestedOutcome(st, 2, 0, Constraint(0, 0), 0).state)
  {
  }

  lemma Step4(st: State)
    requires After3(st)
    ensures After4(Allocate(st, ScheduledUnit(2, CoLocated(0, Constraint(0, 0))), []).state)
    ensures Allocate(st, ScheduledUnit(2, CoLocated(0, Constraint(0, 0))), []).result == Success(LogicalSlot(1, 1, Local))
  {
    Step4Choice(st);
    Step4Pool(st);
    Step4Sharing(st);
    Step4Bound(st);
  }

  method Call4(scheduler: Scheduler) returns (r: Result<LogicalSlot, SchedulingError>)
    requires scheduler.Valid() && After3(scheduler.St())
    modifies scheduler
    ensures scheduler.Valid() && After4(scheduler.St()) && r == Success(LogicalSlot(1, 1, Local))
  {
    ghost var st := scheduler.St();
    r := scheduler.AllocateSlot(ScheduledUnit(2, CoLocated(0, Constraint(0, 0))), []);
    Step4(st);
  }

  predicate Pool5(st: State)
  {
    && st.instances == [Instance(1, 1), Instance(2, 1)]
    && st.free == []
    && st.handles == [SlotRecord(1, 1, InShared(0, 0, CoLocationKey(0)), false), SlotRecord(2, 1, InShared(0, 0, CoLocationKey(0)), false), SlotRecord(4, 2, Simple, false)]
    && st.nextSlot == 1
    && st.localized == 1
    && st.nonLocalized == 0
    && st.unconstrained == 2
  }

  predicate Sharing5(st: State)
  {
    && st.assignments.Keys == {0}
    && st.assignments[0].slots.Keys == {0}
    && st.assignments[0].slots[0].location == 1
    && st.assignments[0].slots[0].subSlots.Keys == {CoLocationKey(0)}
    && st.assignments[0].slots[0].subSlots[CoLocationKey(0)].CoLocationSlot?
    && st.assignments[0].slots[0].subSlots[CoLocationKey(0)].constraint == Constraint(0, 0)
    && st.assignments[0].slots[0].subSlots[CoLocationKey(0)].handles == {0, 1}
    && st.assignments[0].order == [0]
    && st.assignments[0].available.Keys == {CoLocationKey(0)}
    && st.assignments[0].available[CoLocationKey(0)] == []
  }

  predicate Bound5(st: State)
  {
    && st.bindings.Keys == {Constraint(0, 0)}
    && st.bindings[Constraint(0, 0)] == 1
    && st.placement.Keys == {Constraint(0, 0)}
    && st.placement[Constraint(0, 0)] == Placement(0, 0)
  }

  predicate After5(st: State)
  {
    Pool5(st) && Sharing5(st) && Bound5(st)
  }

  method Call5(scheduler: Scheduler) returns (r: Result<LogicalSlot, SchedulingError>)
    requires scheduler.Valid() && After4(scheduler.St())
    modifies scheduler
    ensures scheduler.Valid() && After5(scheduler.St()) && r == Success(LogicalSlot(2, 2, Unconstrained))
  {
    ghost var st := scheduler.St();
    r := scheduler.AllocateSlot(ScheduledUnit(4, Unshared), []);
    Step5Pool(st); Step5Sharing(st); Step5Bound(st);
  }

  lemma Step5Pool(st: State)
    requires After4(st)
    ensures Pool5(Allocate(st, ScheduledUnit(4, Unshared), []).state)
    ensures Allocate(st, ScheduledUnit(4, Unshared), []).result == Success(LogicalSlot(2, 2, Unconstrained))
  {
  }

  lemma Step5Sharing(st: State)
    requires After4(st)
    ensures Sharing5(Allocate(st, ScheduledUnit(4, Unshared), []).state)
  {
  }

  lemma Step5Bound(st: State)
    requires After4(st)
    ensures Bound5(Allocate(st, ScheduledUnit(4, Unshared), []).state)
  {
  }

  predicate Pool6(st: State)
  {
    && st.instances == [Instance(1, 1), Instance(2, 1)]
    && st.free == []
    && st.handles == [SlotRecord(1, 1, InShared(0, 0, CoLocationKey(0)), true), SlotRecord(2, 1, InShared(0, 0, CoLocationKey(0)), false), SlotRecord(4, 2, Simple, false)]
    && st.nextSlot == 1
    && st.localized == 1
    && st.nonLocalized == 0
    && st.unconstrained == 2
  }

  predicate Sharing6(st: State)
  {
    && st.assignments.Keys == {0}
    && st.assignments[0].slots.Keys == {0}
    && st.assignments[0].slots[0].location == 1
    && st.assignments[0].slots[0].subSlots.Keys == {CoLocationKey(0)}
    && st.assignments[0].slots[0].subSlots[CoLocationKey(0)].CoLocationSlot?
    && st.assignments[0].slots[0].subSlots[CoLocationKey(0)].constraint == Constraint(0, 0)
    && st.assignments[0].slots[0].subSlots[CoLocationKey(0)].handles == {1}
    && st.assignments[0].order == [0]
    && st.assignments[0].available.Keys == {CoLocationKey(0)}
    && st.assignments[0].available[CoLocationKey(0)] == []
  }

  predicate Bound6(st: State)
  {
    && st.bindings.Keys == {Constraint(0, 0)}
    && st.bindings[Constraint(0, 0)] == 1
    && st.placement.Keys == {Constraint(0, 0)}
    && st.placement[Constraint(0, 0)] == Placement(0, 0)
  }

  predicate After6(st: State)
  {
    Pool6(st) && Sharing6(st) && Bound6(st)
  }

  lemma Step6Path(st: State)
    requires After5(st)
    ensures Release(st, 0) == st.(handles := st.handles[0 := st.handles[0].(released := true)], assignments := st.assignments[0 := ReleaseSub(st.assignments[0], 0, CoLocationKey(0), 0).assignment])
  {
    assert st.assignments[0].slots[0].subSlots[CoLocationKey(0)].handles - {0} == {1};
  }

  lemma Step6Pool(st: State)
    requires After5(st)
    ensures Pool6(st.(handles := st.handles[0 := st.handles[0].(released := true)], assignments := st.assignments[0 := ReleaseSub(st.assignments[0], 0, CoLocationKey(0), 0).assignment]))
  {
  }

  lemma Step6Sharing(st: State)
    requires After5(st)
    ensures Sharing6(st.(handles := st.handles[0 := st.handles[0].(released := true)], assignments := st.assignments[0 := ReleaseSub(st.assignments[0], 0, CoLocationKey(0), 0).assignment]))
  {
    assert st.assignments[0].slots[0].subSlots[CoLocationKey(0)].handles - {0} == {1};
  }

  lemma Step6Bound(st: State)
    requires After5(st)
    ensures Bound6(st.(handles := st.handles[0 := st.handles[0].(released := true)], assignments := st.assignments[0 := ReleaseSub(st.assignments[0], 0, CoLocationKey(0), 0).assignment]))
  {
  }

  lemma Step6(st: State)
    requires After5(st)
    ensures After6(Release(st, 0))
  {
    Step6Path(st);
    Step6Pool(st);
    Step6Sharing(st);
    Step6Bound(st);
  }

  method Call6(scheduler: Scheduler, h: nat)
    requires scheduler.Valid() && After5(scheduler.St()) && h == 0
    modifies scheduler
    ensures scheduler.Valid() && After6(scheduler.St())
  {
    ghost var st := scheduler.St();
    scheduler.ReleaseSlot(h);
    Step6(st);
  }

  predicate Pool7(st: State)
  {
    && st.instances == [Instance(1, 1), Instance(2, 1)]
    && st.free == [1]
    && st.handles == [SlotRecord(1, 1, InShared(0, 0, CoLocationKey(0)), true), SlotRecord(2, 1, InShared(0, 0, CoLocationKey(0)), true), SlotRecord(4, 2, Simple, false)]
    && st.nextSlot == 1
    && st.localized == 1
    && st.nonLocalized == 0
    && st.unconstrained == 2
  }

  predicate Sharing7(st: State)
  {
    && st.assignments.Keys == {0}
    && st.assignments[0].slots.Keys == {}
    && st.assignments[0].order == []
    && st.assignments[0].available.Keys == {CoLocationKey(0)}
    && st.assignments[0].available[CoLocationKey(0)] == []
  }

  predicate Bound7(st: State)
  {
    && st.bindings.Keys == {Constraint(0, 0)}
    && st.bindings[Constraint(0, 0)] == 1
    && st.placement.Keys == {Constraint(0, 0)}
    && st.placement[Constraint(0, 0)] == Placement(0, 0)
  }

  predicate After7(st: State)
  {
    Pool7(st) && Sharing7(st) && Bound7(st)
  }

  lemma Step7Path(st: State)
    requires After6(st)
    ensures Release(st, 1) == st.(handles := st.handles[1 := st.handles[1].(released := true)], assignments := st.assignments[0 := ReleaseSub(st.assignments[0], 0, CoLocationKey(0), 1).assignment], free := st.free + [st.assignments[0].slots[0].location], inUse := st.inUse - {SharedUse(0, 0)})
  {
    assert st.assignments[0].slots[0].subSlots[CoLocationKey(0)].handles - {1} == {};
    assert (st.assignments[0].slots[0].subSlots - {CoLocationKey(0)}).Keys == {};
  }

  lemma Step7Pool(st: State)
    requires After6(st)
    ensures Pool7(st.(handles := st.handles[1 := st.handles[1].(released := true)], assignments := st.assignments[0 := ReleaseSub(st.assignments[0], 0, CoLocationKey(0), 1).assignment], free := st.free + [st.assignments[0].slots[0].location], inUse := st.inUse - {SharedUse(0, 0)}))
  {
  }

  lemma Step7Sharing(st: State)
    requires After6(st)
    ensures Sharing7(st.(handles := st.handles[1 := st.handles[1].(released := true)], assignments := st.assignments[0 := ReleaseSub(st.assignments[0], 0, CoLocationKey(0), 1).assignment], free := st.free + [st.assignments[0].slots[0].location], inUse := st.inUse - {SharedUse(0, 0)}))
  {
    assert st.assignments[0].slots.Keys - {0} == {};
    assert st.assignments[0].available.Keys == {CoLocationKey(0)};
    assert RemoveFirst([0], 0) == [];
    assert RemoveFirst([], 0) == [];
  }

  lemma Step7Bound(st: State)
    requires After6(st)
    ensures Bound7(st.(handles := st.handles[1 := st.handles[1].(released := true)], assignments := st.assignments[0 := ReleaseSub(st.assignments[0], 0, CoLocationKey(0), 1).assignment], free := st.free + [st.assignments[0].slots[0].location], inUse := st.inUse - {SharedUse(0, 0)}))
  {
  }

  lemma Step7(st: State)
    requires After6(st)
    ensures After7(Release(st, 1))
  {
    Step7Path(st);
    Step7Pool(st);
    Step7Sharing(st);
    Step7Bound(st);
  }

  method Call7(scheduler: Scheduler, h: nat)
    requires scheduler.Valid() && After6(scheduler.St()) && h == 1
    modifies scheduler
    ensures scheduler.Valid() && After7(scheduler.St())
  {
    ghost var st := scheduler.St();
    scheduler.ReleaseSlot(h);
    Step7(st);
  }

  predicate Pool8(st: State)
  {
    && st.instances == [Instance(1, 1), Instance(2, 1)]
    && st.free == [1, 2]
    && st.handles == [SlotRecord(1, 1, InShared(0, 0, CoLocationKey(0)), true), SlotRecord(2, 1, InShared(0, 0, CoLocationKey(0)), true), SlotRecord(4, 2, Simple, true)]
    && st.nextSlot == 1
    && st.localized == 1
    && st.nonLocalized == 0
    && st.unconstrained == 2
  }

  predicate Sharing8(st: State)
  {
    && st.assignments.Keys == {0}
    && st.assignments[0].slots.Keys == {}
    && st.assignments[0].order == []
    && st.assignments[0].available.Keys == {CoLocationKey(0)}
    && st.assignments[0].available[CoLocationKey(0)] == []
  }

  predicate Bound8(st: State)
  {
    && st.bindings.Keys == {Constraint(0, 0)}
    && st.bindings[Constraint(0, 0)] == 1
    && st.placement.Keys == {Constraint(0, 0)}
    && st.placement[Constraint(0, 0)] == Placement(0, 0)
  }

  predicate After8(st: State)
  {
    Pool8(st) && Sharing8(st) && Bound8(st)
  }

  method Call8(scheduler: Scheduler, h: nat)
    requires scheduler.Valid() && After7(scheduler.St()) && h == 2
    modifies scheduler
    ensures scheduler.Valid() && After8(scheduler.St())
  {
    ghost var st := scheduler.St();
    scheduler.ReleaseSlot(h);
    Step8Pool(st); Step8Sharing(st); Step8Bound(st);
  }

  lemma Step8Pool(st: State)
    requires After7(st)
    ensures Pool8(Release(st, 2))
  {
  }

  lemma Step8Sharing(st: State)
    requires After7(st)
    ensures Sharing8(Release(st, 2))
  {
  }

  lemma Step8Bound(st: State)
    requires After7(st)
    ensures Bound8(Release(st, 2))
  {
  }

  predicate Pool9(st: State)
  {
    && st.instances == [Instance(1, 1), Instance(2, 1)]
    && st.free == [2]
    && st.handles == [SlotRecord(1, 1, InShared(0, 0, CoLocationKey(0)), true), SlotRecord(2, 1, InShared(0, 0, CoLocationKey(0)), true), SlotRecord(4, 2, Simple, true), SlotRecord(3, 1, InShared(0, 1, CoLocationKey(0)), false)]
    && st.nextSlot == 2
    && st.localized == 2
    && st.nonLocalized == 0
    && st.unconstrained == 2
  }

  predicate Sharing9(st: State)
  {
    && st.assignments.Keys == {0}
    && st.assignments[0].slots.Keys == {1}
    && st.assignments[0].slots[1].location == 1
    && st.assignments[0].slots[1].subSlots.Keys == {CoLocationKey(0)}
    && st.assignments[0].slots[1].subSlots[CoLocationKey(0)].CoLocationSlot?
    && st.assignments[0].slots[1].subSlots[CoLocationKey(0)].constraint == Constraint(0, 0)
    && st.assignments[0].slots[1].subSlots[CoLocationKey(0)].handles == {3}
    && st.assignments[0].order == [1]
    && st.assignments[0].available.Keys == {CoLocationKey(0)}
    && st.assignments[0].available[CoLocationKey(0)] == []
  }

  predicate Bound9(st: State)
  {
    && st.bindings.Keys == {Constraint(0, 0)}
    && st.bindings[Constraint(0, 0)] == 1
    && st.placement.Keys == {Constraint(0, 0)}
    && st.placement[Constraint(0, 0)] == Placement(0, 1)
  }

  predicate After9(st: State)
  {
    Pool9(st) && Sharing9(st) && Bound9(st)
  }

  lemma Step9Choice(st: State)
    requires After8(st)
    ensures ChooseInGroup(st, 3, 0, Some(Constraint(0, 0)), []) == OpenSharedSlot(InstancePick(1, Local, [2]))
  {
    assert FirstPreferredFree([1, 2], [1]) == Some(1);
    assert RemoveFirst([1, 2], 1) == [2];
  }

  lemma Step9Pool(st: State)
    requires After8(st) && ChooseInGroup(st, 3, 0, Some(Constraint(0, 0)), []) == OpenSharedSlot(InstancePick(1, Local, [2]))
    ensures Pool9(IntoNewSlot(st, 3, 0, Some(Constraint(0, 0)), InstancePick(1, Local, [2])).state)
    ensures IntoNewSlot(st, 3, 0, Some(Constraint(0, 0)), InstancePick(1, Local, [2])).result == Success(LogicalSlot(3, 1, Local))
  {
    assert RemoveFirst([1, 2], 1) == [2];
  }

  lemma Step9Sharing(st: State)
    requires After8(st) && ChooseInGroup(st, 3, 0, Some(Constraint(0, 0)), []) == OpenSharedSlot(InstancePick(1, Local, [2]))
    ensures Sharing9(IntoNewSlot(st, 3, 0, Some(Constraint(0, 0)), InstancePick(1, Local, [2])).state)
  {
    assert RemoveFirst([1, 2], 1) == [2];
  }

  lemma Step9Bound(st: State)
    requires After8(st) && ChooseInGroup(st, 3, 0, Some(Constraint(0, 0)), []) == OpenSharedSlot(InstancePick(1, Local, [2]))
    ensures Bound9(IntoNewSlot(st, 3, 0, Some(Constraint(0, 0)), InstancePick(1, Local, [2])).state)
  {
    assert RemoveFirst([1, 2], 1) == [2];
  }

  lemma Step9(st: State)
    requires After8(st)
    ensures After9(Allocate(st, ScheduledUnit(3, CoLocated(0, Constraint(0, 0))), []).state)
    ensures Allocate(st, ScheduledUnit(3, CoLocated(0, Constraint(0, 0))), []).result == Success(LogicalSlot(3, 1, Local))
  {
    Step9Choice(st);
    Step9Pool(st);
    Step9Sharing(st);
    Step9Bound(st);
  }

  method Call9(scheduler: Scheduler) returns (r: Result<LogicalSlot, SchedulingError>)
    requires scheduler.Valid() && After8(scheduler.St())
    modifies scheduler
    ensures scheduler.Valid() && After9(scheduler.St()) && r == Success(LogicalSlot(3, 1, Local))
  {
    ghost var st := scheduler.St();
    r := scheduler.AllocateSlot(ScheduledUnit(3, CoLocated(0, Constraint(0, 0))), []);
    Step9(st);
  }

  lemma Check2(st: State)
    requires After2(st)
    ensures |st.free| == 2
  {
  }

  /** Calls 1 to 5 of the test. */
  method Part1(scheduler: Scheduler) returns (s1: Result<LogicalSlot, SchedulingError>, s2: Result<LogicalSlot, SchedulingError>, sSolo: Result<LogicalSlot, SchedulingError>)
    requires scheduler.Valid() && After0(scheduler.St())
    modifies scheduler
    ensures scheduler.Valid() && After5(scheduler.St()) && s1 == Success(LogicalSlot(0, 1, Unconstrained)) && s2 == Success(LogicalSlot(1, 1, Local)) && sSolo == Success(LogicalSlot(2, 2, Unconstrained))
  {
    Call1(scheduler);
    Call2(scheduler);
    Check2(scheduler.St());
    assert scheduler.NumberOfAvailableSlots() == 2;
    s1 := Call3(scheduler);
    s2 := Call4(scheduler);
    sSolo := Call5(scheduler);
  }

  /** Calls 6 to 9 of the test. */
  method Part2(scheduler: Scheduler, s1: Result<LogicalSlot, SchedulingError>, s2: Result<LogicalSlot, SchedulingError>, sSolo: Result<LogicalSlot, SchedulingError>)
    requires scheduler.Valid() && After5(scheduler.St()) && s1 == Success(LogicalSlot(0, 1, Unconstrained)) && s2 == Success(LogicalSlot(1, 1, Local)) && sSolo == Success(LogicalSlot(2, 2, Unconstrained))
    modifies scheduler
    ensures scheduler.Valid() && After9(scheduler.St())
  {
    Call6(scheduler, s1.value.id);
    Call7(scheduler, s2.value.id);
    Call8(scheduler, sSolo.value.id);
    var sNew := Call9(scheduler);
    assert s1.Success? && sNew.Success?;
    assert s1.value.location == sNew.value.location;
  }

  lemma Check9Final(st: State)
    requires After9(st)
    ensures st.localized == 2 && st.nonLocalized == 0 && st.unconstrained == 2
  {
  }

  /** The test of the same name (ScheduleWithCoLocationHintTest.java, lines 157-202), call by call. */
  method ScheduleWithIntermediateRelease() returns (scheduler: Scheduler)
    ensures scheduler.NumberOfLocalizedAssignments() == 2 && scheduler.NumberOfNonLocalizedAssignments() == 0 && scheduler.NumberOfUnconstrainedAssignments() == 2
  {
    scheduler := new Scheduler();
    Step0();
    var s1, s2, sSolo := Part1(scheduler);
    Part2(scheduler, s1, s2, sSolo);
    Check9Final(scheduler.St());
  }
}
