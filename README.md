# Flink legacy slot scheduler with co-location constraints

A model of the legacy Flink `Scheduler` as the test class
`ScheduleWithCoLocationHintTest` drives it: TaskManager instances register
their slots, subtasks (`ScheduledUnit`s) ask for a slot with or without a
slot-sharing group and a co-location constraint and with a list of preferred
locations, slots are released again, and the scheduler keeps count of how many
allocations were local, non-local or unconstrained.

- `Types.dfy` (`SchedulerTypes`): identifiers, requests, outcomes.
- `SlotPool.dfy` (`SlotPool`): the free raw slots of the registered instances
  and how one is picked for a list of preferences.
- `SlotSharing.dfy` (`SlotSharing`): the subtask assignment of one slot-sharing
  group (`SlotSharingGroupAssignment`): shared slots, their sub-slots per job
  vertex or per co-location group, the nested slots of co-location constraints,
  and the slots still open to each key.
- `SchedulerState.dfy` (`SchedulerState`): the scheduler's whole state as one
  value and its three calls as functions on it (`Register`, `Allocate`,
  `Release`), with the observers the tests read.
- `Invariant.dfy` (`SchedulerInvariant`): the bookkeeping invariant and its
  preservation by every call.
- `Properties.dfy` (`SchedulerProperties`): what the scheduler promises
  callers: co-location, classification, refusal, exclusivity, accounting.
- `Scheduler.dfy` (`Scheduling`): the scheduler as a mutable object whose
  methods update its fields in place, each proved against the state function
  of the same name. A ghost history of the calls made so far ties the object to
  the runs of `SchedulerProperties`.
- Nine `*Test.dfy` files: each test of the class replayed call by call on a
  `Scheduler` object. Every `assertEquals`/`assertNotNull`/`assertTrue` of the
  test is a proved `assert` at the same point, and the final checks are the
  test method's `ensures`.

The allocation algorithm, per subtask:

1. Without a sharing group: take a free raw slot (preferred location first).
2. With a co-location constraint that already has a live nested slot: join it
   (local).
3. Otherwise, for a constraint that already has a location, only that location
   will do: take a slot of the group there that does not yet host the
   constraint's co-location group, else a free raw slot there, else fail.
4. Otherwise take a slot of the group at a preferred location (local). Failing
   that, take a free raw slot at a preferred location (local). Failing that,
   take any slot of the group still open to the subtask's key (non-local),
   else any free raw slot (non-local), else fail. Without preferences, the
   first open slot of the group or the oldest free raw slot is taken
   (unconstrained).
5. The first slot granted to a constraint locks the constraint to that
   location for good, even after all its subtasks are released.

Exactly one of the three counters goes up per granted slot. Releasing a
subtask empties its sub-slot. A shared slot left without sub-slots goes back
to the pool as a free raw slot.

## Model

| member | source | states |
|---|---|---|
| Scheduling.Scheduler.constructor | flink-runtime/src/test/java/org/apache/flink/runtime/jobmanager/scheduler/ScheduleWithCoLocationHintTest.java:50 | a new scheduler has no instances, no free slots, no slot records, no locations and zero counters |
| Scheduling.Scheduler.NewInstanceAvailable | flink-runtime/src/test/java/org/apache/flink/runtime/jobmanager/scheduler/ScheduleWithCoLocationHintTest.java:52-56 | the new state is `Register` of the old and the invariant is kept; a new instance adds exactly its slot count to the free slots |
| Scheduling.Scheduler.AllocateSlot | flink-runtime/src/test/java/org/apache/flink/runtime/jobmanager/scheduler/ScheduleWithCoLocationHintTest.java:69-80 | result and new state are those of `Allocate`; the invariant is kept; a refusal changes nothing; a grant returns the next handle and bumps exactly the counter of its locality; no constraint loses or moves its location |
| Scheduling.Scheduler.ReleaseSlot | flink-runtime/src/test/java/org/apache/flink/runtime/jobmanager/scheduler/ScheduleWithCoLocationHintTest.java:118-127 | the new state is `Release` of the old and the invariant is kept; the record is marked released; at most one raw slot comes back; locations are untouched |
| Scheduling.Scheduler.ValidInv | flink-runtime/src/test/java/org/apache/flink/runtime/jobmanager/scheduler/ScheduleWithCoLocationHintTest.java:110-116 | a scheduler reached by any sequence of calls satisfies the bookkeeping invariant |
| SchedulerInvariant.InitialInv | flink-runtime/src/test/java/org/apache/flink/runtime/jobmanager/scheduler/ScheduleWithCoLocationHintTest.java:50 | the empty scheduler satisfies the invariant |
| SchedulerInvariant.RegisterInv | flink-runtime/src/test/java/org/apache/flink/runtime/jobmanager/scheduler/ScheduleWithCoLocationHintTest.java:52-56 | registering an instance keeps the invariant |
| SchedulerInvariant.AllocateInv | flink-runtime/src/test/java/org/apache/flink/runtime/jobmanager/scheduler/ScheduleWithCoLocationHintTest.java:69-80 | every allocation keeps the invariant: free plus used raw slots make up the capacity, records and shared slots agree, nested slots sit at their constraint's location, counters add up to the records, and a vertex sub-slot is held only by records of that vertex |
| SchedulerInvariant.ReleaseInv | flink-runtime/src/test/java/org/apache/flink/runtime/jobmanager/scheduler/ScheduleWithCoLocationHintTest.java:118-142 | every release of a granted slot keeps the invariant, including a repeated release |
| SchedulerProperties.RunInv | flink-runtime/src/test/java/org/apache/flink/runtime/jobmanager/scheduler/ScheduleWithCoLocationHintTest.java:110-116 | every admissible sequence of calls keeps the invariant |
| SchedulerProperties.RunSnoc | flink-runtime/src/test/java/org/apache/flink/runtime/jobmanager/scheduler/ScheduleWithCoLocationHintTest.java:50-56 | an admissible run followed by one admissible call is an admissible run ending in that call's state |
| SchedulerProperties.CoLocatedSameLocation | flink-runtime/src/test/java/org/apache/flink/runtime/jobmanager/scheduler/ScheduleWithCoLocationHintTest.java:95-101 | two granted subtasks of one constraint are at the same location whatever calls came between, and the later one counts as local |
| SchedulerProperties.AllocateBinds | flink-runtime/src/test/java/org/apache/flink/runtime/jobmanager/scheduler/ScheduleWithCoLocationHintTest.java:103-108 | an allocation keeps every existing location; a granted co-located subtask's constraint is located where its slot is; nothing else gains a location |
| SchedulerProperties.ApplyKeepsBindings | flink-runtime/src/test/java/org/apache/flink/runtime/jobmanager/scheduler/ScheduleWithCoLocationHintTest.java:184-192 | no call (registration, allocation or release) removes or moves a constraint's location |
| SchedulerProperties.RunKeepsBindings | flink-runtime/src/test/java/org/apache/flink/runtime/jobmanager/scheduler/ScheduleWithCoLocationHintTest.java:425-438 | a location survives any sequence of calls, so a constraint returns to it after all its subtasks were released |
| SchedulerProperties.BoundConstraintOverrides | flink-runtime/src/test/java/org/apache/flink/runtime/jobmanager/scheduler/ScheduleWithCoLocationHintTest.java:360-371 | a subtask whose constraint has a location gets a slot only there, counted as local, whatever its own preferences |
| SchedulerProperties.BoundRefusedIff | flink-runtime/src/test/java/org/apache/flink/runtime/jobmanager/scheduler/ScheduleWithCoLocationHintTest.java:497-507 | a subtask of a located constraint is refused if and only if the constraint has no live nested slot, no raw slot is free at the location, and every shared slot of its group there already hosts its co-location group |
| SchedulerProperties.AllocateCounts | flink-runtime/src/test/java/org/apache/flink/runtime/jobmanager/scheduler/ScheduleWithCoLocationHintTest.java:113-116 | a refused allocation changes nothing; a granted one adds one record, returns its index, and bumps exactly the counter of its locality |
| SchedulerProperties.UnboundLocality | flink-runtime/src/test/java/org/apache/flink/runtime/jobmanager/scheduler/ScheduleWithCoLocationHintTest.java:374-378 | without a located constraint a grant is local iff its location is preferred, unconstrained iff there are no preferences, non-local otherwise |
| SchedulerProperties.GroupSlotBeforeNonLocal | flink-runtime/src/test/java/org/apache/flink/runtime/jobmanager/scheduler/ScheduleWithCoLocationHintTest.java:355-358 | when no preferred location has a free raw slot and the group has a slot open to the subtask, the subtask is granted without taking a raw slot |
| SchedulerProperties.AllocateOwnSubSlot | flink-runtime/src/test/java/org/apache/flink/runtime/jobmanager/scheduler/ScheduleWithCoLocationHintTest.java:548-559 | a granted subtask of a group sits alone in the sub-slot of its vertex, or in the nested slot of its own constraint, under its co-location group's key |
| SchedulerProperties.VertexSubSlotExclusive | flink-runtime/src/test/java/org/apache/flink/runtime/jobmanager/scheduler/ScheduleWithCoLocationHintTest.java:619-626 | two live records in the same vertex sub-slot of one shared slot are the same record |
| SchedulerProperties.SharedSlotVerticesDistinct | flink-runtime/src/test/java/org/apache/flink/runtime/jobmanager/scheduler/ScheduleWithCoLocationHintTest.java:619-626 | two distinct live subtasks without constraint in one shared slot belong to two different vertices |
| SchedulerProperties.SharedSlotOneConstraint | flink-runtime/src/test/java/org/apache/flink/runtime/jobmanager/scheduler/ScheduleWithCoLocationHintTest.java:548-563 | two live subtasks of one co-location group in one shared slot are both in the nested slot of a single constraint |
| SchedulerProperties.NoSharedSlotsWhenAllReleased | flink-runtime/src/test/java/org/apache/flink/runtime/jobmanager/scheduler/ScheduleWithCoLocationHintTest.java:425-429 | once every record is released no group holds a shared slot |
| SchedulerProperties.AllReleasedAllFree | flink-runtime/src/test/java/org/apache/flink/runtime/jobmanager/scheduler/ScheduleWithCoLocationHintTest.java:572-581 | once every record is released every raw slot is free and every group has zero slots and zero slots open to any key |
| SchedulerProperties.GroupSlotCounts | flink-runtime/src/test/java/org/apache/flink/runtime/jobmanager/scheduler/ScheduleWithCoLocationHintTest.java:579-581 | a group's slot count is its number of live shared slots; the count for a key is the number of those not hosting the key |
| SchedulerProperties.EmptyAssignmentCounts | flink-runtime/src/test/java/org/apache/flink/runtime/jobmanager/scheduler/ScheduleWithCoLocationHintTest.java:635-637 | an assignment without shared slots has zero slots and offers none to any key |
| SchedulerProperties.ReleaseTwice | flink-runtime/src/test/java/org/apache/flink/runtime/jobmanager/scheduler/ScheduleWithCoLocationHintTest.java:133-144 | releasing a slot a second time changes nothing |
| SchedulerProperties.ReleaseReturnsAtMostOne | flink-runtime/src/test/java/org/apache/flink/runtime/jobmanager/scheduler/ScheduleWithCoLocationHintTest.java:118-127 | a release frees at most one raw slot, marks the record released, and changes no location and no counter |
| SchedulerProperties.RegisterAddsSlots | flink-runtime/src/test/java/org/apache/flink/runtime/jobmanager/scheduler/ScheduleWithCoLocationHintTest.java:52-56 | a new instance adds its slots to the free slots and to the capacity; an instance at a location already known leaves the state unchanged |
| SchedulerProperties.UnboundRefusedIff | flink-runtime/src/test/java/org/apache/flink/runtime/jobmanager/scheduler/ScheduleWithCoLocationHintTest.java:228-236 | a subtask without a located constraint is refused if and only if no raw slot is free and, for a subtask of a group, every shared slot of the group already hosts its vertex or co-location group; its preferences never cause a refusal |
| SlotPool.FindInstanceSpec | flink-runtime/src/test/java/org/apache/flink/runtime/jobmanager/scheduler/ScheduleWithCoLocationHintTest.java:346-358 | a pick takes exactly one free raw slot; it is local iff at a preferred location, unconstrained iff there are no preferences; there is no pick iff nothing is free or only preferred slots will do and none is free |
| SlotPool.FirstPreferredFreeIsFirst | flink-runtime/src/test/java/org/apache/flink/runtime/jobmanager/scheduler/ScheduleWithCoLocationHintTest.java:346-349 | preferences are tried in the caller's order |
| SlotSharing.SharedSlotForTaskSpec | flink-runtime/src/test/java/org/apache/flink/runtime/jobmanager/scheduler/ScheduleWithCoLocationHintTest.java:355-358 | a shared slot picked for a key is open to it; it is local iff at a preferred location; nothing is picked only when no open slot will do |
| SlotSharing.EligibleExactly | flink-runtime/src/test/java/org/apache/flink/runtime/jobmanager/scheduler/ScheduleWithCoLocationHintTest.java:579-581 | the slots open to a key are exactly the live slots not hosting it, each once |
| AllSharedAndCoLocatedTest.ScheduleAllSharedAndCoLocated | flink-runtime/src/test/java/org/apache/flink/runtime/jobmanager/scheduler/ScheduleWithCoLocationHintTest.java:45-154 | every assertion of the test holds at its point; in the end 5 slots are free and the counters are 6, 0, 7 |
| IntermediateReleaseTest.ScheduleWithIntermediateRelease | flink-runtime/src/test/java/org/apache/flink/runtime/jobmanager/scheduler/ScheduleWithCoLocationHintTest.java:157-202 | the late subtask of the released constraint lands where the first one did; the counters are 2, 0, 2 |
| ReleaseNoResourceTest.ScheduleWithReleaseNoResource | flink-runtime/src/test/java/org/apache/flink/runtime/jobmanager/scheduler/ScheduleWithCoLocationHintTest.java:205-246 | the subtask whose location was taken meanwhile is refused with no resource available; the counters are 0, 0, 3 |
| MixedCoLocationSlotSharingTest.ScheduleMixedCoLocationSlotSharing | flink-runtime/src/test/java/org/apache/flink/runtime/jobmanager/scheduler/ScheduleWithCoLocationHintTest.java:249-316 | each pair of subtasks of one constraint is at one location; the counters are 4, 0, 12 |
| NonLocalFromSharingGroupTest.GetsNonLocalFromSharingGroupFirst | flink-runtime/src/test/java/org/apache/flink/runtime/jobmanager/scheduler/ScheduleWithCoLocationHintTest.java:320-393 | the pairs share locations, the counters are 5, 1, 0, and both slots are free after the releases |
| SlotReleasedInBetweenTest.SlotReleasedInBetween | flink-runtime/src/test/java/org/apache/flink/runtime/jobmanager/scheduler/ScheduleWithCoLocationHintTest.java:396-453 | the constraints keep their first locations against new preferences; the counters are 4, 0, 0 |
| ReleasedNoNewLocalTest.SlotReleasedInBetweenAndNoNewLocal | flink-runtime/src/test/java/org/apache/flink/runtime/jobmanager/scheduler/ScheduleWithCoLocationHintTest.java:456-522 | the subtask bound to a full location is refused; the counters are 2, 0, 2 |
| OutOfOrderTest.ScheduleOutOfOrder | flink-runtime/src/test/java/org/apache/flink/runtime/jobmanager/scheduler/ScheduleWithCoLocationHintTest.java:525-587 | the two constraints get different slots; the counters are 3, 1, 0; after the releases the group has no slot and offers none |
| NonCoLocationFollowsTest.NonColocationFollowsCoLocation | flink-runtime/src/test/java/org/apache/flink/runtime/jobmanager/scheduler/ScheduleWithCoLocationHintTest.java:590-643 | the plain subtasks fill the slots the constraints opened, one each; after the releases the group has no slot and offers none |

## Left out

- The scheduler's own classes (`Scheduler`, `SlotSharingGroupAssignment`, `CoLocationConstraint`, `Instance`) are not part of this model. The algorithm above is the behaviour the tests fix, and the model is proved to pass every assertion of every test.
- Tie-breaks the tests do not fix are a deterministic rule, not a claim about Flink. Raw slots are handed out oldest-free first, and a released one goes last. Shared slots are offered in the order they became open to a key.
- Futures, queued scheduling and the execution context: every call here completes at once (all test calls pass `allowQueued = false`). `NoResourceAvailableException` is the result `Failure(NoResourceAvailable)`.
- Allocations whose result the test ignores (lines 273-276 and 298-301) are ordinary calls whose result is dropped.
- Object identity is modelled as plain values. `LogicalSlot` is a handle number into the scheduler's slot records. `JobVertexID`, `SlotSharingGroup`, `CoLocationGroup` and instances are numbers. A `TaskManagerLocation` and its `ResourceID` are one location.
- Scheduling.Scheduler.AllocateSlot: requires that a co-location constraint is used with one sharing group only (`ConstraintInGroup`). Flink attaches the constraint's nested slot to a single group, and no test uses a constraint across groups.
- Scheduling.Scheduler.NewInstanceAvailable: an instance at a location already registered leaves the state unchanged and reports nothing. The tests only register fresh instances, and the model does not signal the rejection the scheduler gives for an instance it already holds.
- VertexSubSlotExclusive: a shared slot never holds two subtasks of one vertex under the same key, but the model does not carry the job graph. So it does not exclude one vertex scheduled both with and without a constraint, or under constraints of two co-location groups, or two subtasks of one vertex under one constraint; in such cases two subtasks of one vertex may share a slot under different keys, or in one nested slot.
- Releasing a slot twice (lines 119-142 release some slots a second time) is a no-op, as the test requires.
- Instance failure, instance removal, slot availability listeners and the scheduler's other counters and queries: the tests do not call them.
- The test helpers (`getRandomInstance`, `getTestVertex`, `getTestVertexWithLocation`), JUnit's `try`/`catch`/`fail`, and the logger.
