/**
 * The assignment of subtasks to the shared slots of one slot-sharing group: the shared slots the group
 * holds and, per group key, the shared slots that key may still enter.
 *
 * A shared slot wraps one raw slot and hosts at most one sub-slot per group key.
 * A plain subtask uses its job vertex as key, so a shared slot never holds two
 * subtasks of one vertex. A subtask under a co-location constraint uses the
 * co-location group as key and enters a nested slot owned by its constraint, so
 * a shared slot never holds two constraints of one co-location group, while all
 * subtasks bound by the same constraint share that nested slot.
 */
module SlotSharing {
  import opened SchedulerTypes

  datatype GroupKey = VertexKey(vertex: VertexId) | CoLocationKey(group: CoLocationGroupId)

  /** A sub-slot of a shared slot: one subtask, or the nested slot of a
      co-location constraint with the subtasks bound by it. Subtasks are the
      keys of their slot records. */
  datatype SubSlot = TaskSlot(handle: nat) | CoLocationSlot(constraint: Constraint, handles: set<nat>)

  datatype SharedSlot = SharedSlot(location: Location, subSlots: map<GroupKey, SubSlot>)

  /**
   * `slots`: the live shared slots; `order`: the same slots, oldest first;
   * `available[k]`: the shared slots key `k` may enter, in the order they are
   * offered. A key without an entry may enter every slot.
   */
  datatype Assignment = Assignment(slots: map<SlotId, SharedSlot>, order: seq<SlotId>, available: map<GroupKey, seq<SlotId>>)

  const EmptyAssignment := Assignment(map[], [], map[])

  function Handles(sub: SubSlot): set<nat>
  {
    match sub
    case TaskSlot(h) => {h}
    case CoLocationSlot(_, hs) => hs
  }

  /** The sub-slot kind matches its key and a nested slot is never empty. */
  predicate SubSlotFits(key: GroupKey, sub: SubSlot)
  {
    match sub
    case TaskSlot(_) => key.VertexKey?
    case CoLocationSlot(c, hs) => key == CoLocationKey(c.group) && hs != {}
  }

  predicate SlotFits(slot: SharedSlot)
  {
    slot.subSlots.Keys != {} && forall k :: k in slot.subSlots ==> SubSlotFits(k, slot.subSlots[k])
  }

  /** The shared slots key `key` may enter, in offer order. */
  function Eligible(a: Assignment, key: GroupKey): seq<SlotId>
  {
    if key in a.available then a.available[key] else a.order
  }

  predicate Hosts(a: Assignment, id: SlotId, key: GroupKey)
  {
    id in a.slots && key in a.slots[id].subSlots
  }

  /** The bookkeeping invariant of an assignment. */
  ghost predicate Wellformed(a: Assignment)
  {
    && Distinct(a.order)
    && (forall id :: id in a.order <==> id in a.slots)
    && (forall id :: id in a.slots ==> SlotFits(a.slots[id]))
    && (forall k :: k in a.available ==> Distinct(a.available[k]))
    && (forall k, id :: k in a.available ==> (id in a.available[k] <==> id in a.slots && !Hosts(a, id, k)))
    && (forall k, id :: Hosts(a, id, k) ==> k in a.available)
  }

  /** The slots offered to a key are exactly the live slots not hosting it. */
  lemma EligibleExactly(a: Assignment, key: GroupKey)
    requires Wellformed(a)
    ensures Distinct(Eligible(a, key))
    ensures forall id :: id in Eligible(a, key) <==> id in a.slots && !Hosts(a, id, key)
  {
  }

  function NumberOfSlots(a: Assignment): nat
  {
    |a.order|
  }

  function NumberOfAvailableSlotsForGroup(a: Assignment, key: GroupKey): nat
  {
    |Eligible(a, key)|
  }

  /** The first of `ids` whose slot is at `loc`. */
  function FirstAt(ids: seq<SlotId>, slots: map<SlotId, SharedSlot>, loc: Location): (r: Option<SlotId>)
    ensures r.Some? ==> r.value in slots
  {
    if ids == [] then None
    else if ids[0] in slots && slots[ids[0]].location == loc then Some(ids[0])
    else FirstAt(ids[1..], slots, loc)
  }

  lemma {:induction false} FirstAtSpec(ids: seq<SlotId>, slots: map<SlotId, SharedSlot>, loc: Location)
    ensures var r := FirstAt(ids, slots, loc);
      && (r.Some? ==> r.value in ids && slots[r.value].location == loc)
      && (r.None? ==> forall id :: id in ids && id in slots ==> slots[id].location != loc)
  {
    if ids != [] && !(ids[0] in slots && slots[ids[0]].location == loc) {
      FirstAtSpec(ids[1..], slots, loc);
      assert forall id :: id in ids ==> id == ids[0] || id in ids[1..];
    }
  }

  /** A slot among `ids` at the first preferred location that has one. */
  function FirstPreferredSlot(ids: seq<SlotId>, slots: map<SlotId, SharedSlot>, prefs: seq<Location>): (r: Option<SlotId>)
    ensures r.Some? ==> r.value in slots
  {
    if prefs == [] then None
    else match FirstAt(ids, slots, prefs[0])
      case Some(id) => Some(id)
      case None => FirstPreferredSlot(ids, slots, prefs[1..])
  }

  lemma {:induction false} FirstPreferredSlotSpec(ids: seq<SlotId>, slots: map<SlotId, SharedSlot>, prefs: seq<Location>)
    ensures var r := FirstPreferredSlot(ids, slots, prefs);
      && (r.Some? ==> r.value in ids && slots[r.value].location in prefs)
      && (r.None? ==> forall id :: id in ids && id in slots ==> slots[id].location !in prefs)
  {
    if prefs != [] {
      FirstAtSpec(ids, slots, prefs[0]);
      if FirstAt(ids, slots, prefs[0]).None? {
        FirstPreferredSlotSpec(ids, slots, prefs[1..]);
        assert forall l :: l in prefs ==> l == prefs[0] || l in prefs[1..];
      }
    }
  }

  /** The first of `ids` that is still a live slot. */
  function FirstLive(ids: seq<SlotId>, slots: map<SlotId, SharedSlot>): (r: Option<SlotId>)
    ensures r.Some? ==> r.value in slots
  {
    if ids == [] then None
    else if ids[0] in slots then Some(ids[0])
    else FirstLive(ids[1..], slots)
  }

  lemma {:induction false} FirstLiveSpec(ids: seq<SlotId>, slots: map<SlotId, SharedSlot>)
    ensures var r := FirstLive(ids, slots);
      && (r.Some? ==> r.value in ids)
      && (r.None? ==> forall id :: id in ids ==> id !in slots)
      && (ids != [] && ids[0] in slots ==> r == Some(ids[0]))
  {
    if ids != [] && ids[0] !in slots {
      FirstLiveSpec(ids[1..], slots);
      assert forall id :: id in ids ==> id == ids[0] || id in ids[1..];
    }
  }

  datatype GroupPick = GroupPick(slot: SlotId, locality: Locality)

  /**
   * An existing shared slot for a key, among the live slots offered to it: one
   * at a preferred location if there is one (local); otherwise none when only
   * local slots will do, else the first one offered, which is non-local when
   * preferences were given and unconstrained when none were.
   */
  function SharedSlotForTask(a: Assignment, key: GroupKey, prefs: seq<Location>, localOnly: bool): (r: Option<GroupPick>)
    ensures r.Some? ==> r.value.slot in a.slots
  {
    var cand := Eligible(a, key);
    if cand == [] then None
    else match FirstPreferredSlot(cand, a.slots, prefs)
    case Some(id) => Some(GroupPick(id, Local))
    case None =>
      if prefs != [] && localOnly then None
      else match FirstLive(cand, a.slots)
        case None => None
        case Some(id) => Some(GroupPick(id, if prefs == [] then Unconstrained else NonLocal))
  }

  /** The slot picked is one the key may enter; its locality says how its
      location relates to the preferences; with only local slots allowed a pick
      is local; and nothing is picked only when no slot open to the key will do. */
  lemma SharedSlotForTaskSpec(a: Assignment, key: GroupKey, prefs: seq<Location>, localOnly: bool)
    ensures var r := SharedSlotForTask(a, key, prefs, localOnly);
      && (r.Some? ==> r.value.slot in Eligible(a, key))
      && (r.Some? ==> (r.value.locality == Local <==> a.slots[r.value.slot].location in prefs))
      && (r.Some? ==> (r.value.locality == Unconstrained <==> prefs == []))
      && (r.Some? && localOnly && prefs != [] ==> r.value.locality == Local)
      && (r.None? ==> forall id :: id in Eligible(a, key) && id in a.slots ==>
                        localOnly && prefs != [] && a.slots[id].location !in prefs)
  {
    FirstPreferredSlotSpec(Eligible(a, key), a.slots, prefs);
    FirstLiveSpec(Eligible(a, key), a.slots);
  }

  /** A further subtask enters the live nested slot `key` of slot `id`. */
  function JoinNested(a: Assignment, id: SlotId, key: GroupKey, h: nat): Assignment
    requires id in a.slots && key in a.slots[id].subSlots && a.slots[id].subSlots[key].CoLocationSlot?
  {
    var slot := a.slots[id];
    var sub := slot.subSlots[key];
    a.(slots := a.slots[id := slot.(subSlots := slot.subSlots[key := sub.(handles := sub.handles + {h})])])
  }

  /** A new sub-slot for `key` in the existing slot `id`, which `key` may no
      longer enter. */
  function AddToSlot(a: Assignment, id: SlotId, key: GroupKey, sub: SubSlot): Assignment
    requires id in a.slots
  {
    var slot := a.slots[id];
    a.(slots := a.slots[id := slot.(subSlots := slot.subSlots[key := sub])],
       available := a.available[key := RemoveFirst(Eligible(a, key), id)])
  }

  /** A new shared slot `id` at `loc` whose first sub-slot is `sub` under `key`;
      every other key may enter it. */
  function AddSlot(a: Assignment, id: SlotId, loc: Location, key: GroupKey, sub: SubSlot): Assignment
  {
    Assignment(
      a.slots[id := SharedSlot(loc, map[key := sub])],
      a.order + [id],
      map k | k in a.available.Keys + {key} :: if k == key then Eligible(a, key) else a.available[k] + [id])
  }

  /** The assignment without shared slot `id`: gone from the slots, the order
      and every list of slots on offer. */
  function Dispose(a: Assignment, id: SlotId): Assignment
  {
    Assignment(a.slots - {id}, RemoveFirst(a.order, id), map k | k in a.available :: RemoveFirst(a.available[k], id))
  }

  /** Result of releasing a subtask: the new assignment and whether its shared
      slot became empty and was dropped (its raw slot is then free again). */
  datatype SubRelease = SubRelease(assignment: Assignment, disposed: bool)

  /**
   * Release subtask `h` from sub-slot `key` of slot `id`. A nested slot that
   * keeps other subtasks stays; otherwise the sub-slot goes and `key` may enter
   * the slot again; a slot left without sub-slots is dropped everywhere.
   */
  function ReleaseSub(a: Assignment, id: SlotId, key: GroupKey, h: nat): SubRelease
    requires id in a.slots && key in a.slots[id].subSlots
  {
    var slot := a.slots[id];
    var sub := slot.subSlots[key];
    if sub.CoLocationSlot? && sub.handles - {h} != {} then
      SubRelease(a.(slots := a.slots[id := slot.(subSlots := slot.subSlots[key := sub.(handles := sub.handles - {h})])]), false)
    else
      var rest := slot.subSlots - {key};
      if rest.Keys == {} then
        SubRelease(Dispose(a, id), true)
      else
        SubRelease(a.(slots := a.slots[id := slot.(subSlots := rest)],
                   available := a.available[key := Eligible(a, key) + [id]]), false)
  }

  // ---------------------------------------------------------------------------
  // The invariant is kept by every operation.

  lemma JoinNestedWellformed(a: Assignment, id: SlotId, key: GroupKey, h: nat)
    requires Wellformed(a)
    requires id in a.slots && key in a.slots[id].subSlots && a.slots[id].subSlots[key].CoLocationSlot?
    ensures Wellformed(JoinNested(a, id, key, h))
  {
    var b := JoinNested(a, id, key, h);
    assert forall i, k :: Hosts(b, i, k) <==> Hosts(a, i, k);
    assert b.slots.Keys == a.slots.Keys;
  }

  lemma AddToSlotWellformed(a: Assignment, id: SlotId, key: GroupKey, sub: SubSlot)
    requires Wellformed(a) && id in a.slots && !Hosts(a, id, key) && SubSlotFits(key, sub)
    ensures Wellformed(AddToSlot(a, id, key, sub))
  {
    AddToSlotFits(a, id, key, sub);
    AddToSlotAvailable(a, id, key, sub);
    AddToSlotKeys(a, id, key, sub);
  }

  lemma HostsAfterAddToSlot(a: Assignment, id: SlotId, key: GroupKey, sub: SubSlot, i: SlotId, k: GroupKey)
    requires id in a.slots
    ensures Hosts(AddToSlot(a, id, key, sub), i, k) <==> Hosts(a, i, k) || (i == id && k == key)
  {
  }

  lemma AddToSlotFits(a: Assignment, id: SlotId, key: GroupKey, sub: SubSlot)
    requires Wellformed(a) && id in a.slots && SubSlotFits(key, sub)
    ensures var b := AddToSlot(a, id, key, sub);
      b.slots.Keys == a.slots.Keys && forall i :: i in b.slots ==> SlotFits(b.slots[i])
  {
    var b := AddToSlot(a, id, key, sub);
    forall i | i in b.slots ensures SlotFits(b.slots[i]) {
      if i == id {
        assert key in b.slots[i].subSlots;
      } else {
        assert b.slots[i] == a.slots[i];
      }
    }
  }

  lemma AddToSlotAvailable(a: Assignment, id: SlotId, key: GroupKey, sub: SubSlot)
    requires Wellformed(a) && id in a.slots && !Hosts(a, id, key)
    ensures var b := AddToSlot(a, id, key, sub);
      && (forall k :: k in b.available ==> Distinct(b.available[k]))
      && (forall k, i :: k in b.available ==> (i in b.available[k] <==> i in b.slots && !Hosts(b, i, k)))
  {
    var b := AddToSlot(a, id, key, sub);
    EligibleExactly(a, key);
    RemoveFirstDistinct(Eligible(a, key), id);
    forall k, i | k in b.available ensures i in b.available[k] <==> i in b.slots && !Hosts(b, i, k) {
      HostsAfterAddToSlot(a, id, key, sub, i, k);
      if k != key {
        assert b.available[k] == a.available[k];
      }
    }
  }

  lemma AddToSlotKeys(a: Assignment, id: SlotId, key: GroupKey, sub: SubSlot)
    requires Wellformed(a) && id in a.slots
    ensures var b := AddToSlot(a, id, key, sub);
      forall k, i :: Hosts(b, i, k) ==> k in b.available
  {
    var b := AddToSlot(a, id, key, sub);
    forall k, i | Hosts(b, i, k) ensures k in b.available {
      HostsAfterAddToSlot(a, id, key, sub, i, k);
    }
  }

  lemma AddSlotWellformed(a: Assignment, id: SlotId, loc: Location, key: GroupKey, sub: SubSlot)
    requires Wellformed(a) && id !in a.slots && SubSlotFits(key, sub)
    ensures Wellformed(AddSlot(a, id, loc, key, sub))
  {
    var b := AddSlot(a, id, loc, key, sub);
    assert Distinct(b.order) by {
      assert id !in a.order;
    }
    assert key in b.slots[id].subSlots;
    forall i | i in b.slots ensures SlotFits(b.slots[i]) {
      if i != id {
        assert b.slots[i] == a.slots[i];
      }
    }
    AddSlotAvailable(a, id, loc, key, sub);
    forall k, i | Hosts(b, i, k) ensures k in b.available {
      HostsAfterAddSlot(a, id, loc, key, sub, i, k);
    }
  }

  lemma HostsAfterAddSlot(a: Assignment, id: SlotId, loc: Location, key: GroupKey, sub: SubSlot, i: SlotId, k: GroupKey)
    ensures Hosts(AddSlot(a, id, loc, key, sub), i, k) <==> (i != id && Hosts(a, i, k)) || (i == id && k == key)
  {
  }

  lemma AddSlotAvailable(a: Assignment, id: SlotId, loc: Location, key: GroupKey, sub: SubSlot)
    requires Wellformed(a) && id !in a.slots
    ensures var b := AddSlot(a, id, loc, key, sub);
      && (forall k :: k in b.available ==> Distinct(b.available[k]))
      && (forall k, i :: k in b.available ==> (i in b.available[k] <==> i in b.slots && !Hosts(b, i, k)))
  {
    var b := AddSlot(a, id, loc, key, sub);
    EligibleExactly(a, key);
    forall k | k in b.available ensures Distinct(b.available[k]) {
      if k != key {
        assert id !in a.available[k];
      }
    }
    forall k, i | k in b.available ensures i in b.available[k] <==> i in b.slots && !Hosts(b, i, k) {
      HostsAfterAddSlot(a, id, loc, key, sub, i, k);
    }
  }

  /** A release drops the whole slot exactly when it reports the slot disposed. */
  lemma ReleaseSubWellformedKeys(a: Assignment, id: SlotId, key: GroupKey, h: nat)
    requires id in a.slots && key in a.slots[id].subSlots
    ensures ReleaseSub(a, id, key, h).disposed ==> ReleaseSub(a, id, key, h).assignment.slots == a.slots - {id}
    ensures !ReleaseSub(a, id, key, h).disposed ==> ReleaseSub(a, id, key, h).assignment.slots.Keys == a.slots.Keys
  {
  }

  lemma ReleaseSubWellformed(a: Assignment, id: SlotId, key: GroupKey, h: nat)
    requires Wellformed(a) && id in a.slots && key in a.slots[id].subSlots
    ensures Wellformed(ReleaseSub(a, id, key, h).assignment)
    ensures forall i :: i in ReleaseSub(a, id, key, h).assignment.slots ==> i in a.slots
  {
    var slot := a.slots[id];
    var sub := slot.subSlots[key];
    if sub.CoLocationSlot? && sub.handles - {h} != {} {
      ShrinkNestedWellformed(a, id, key, h);
    } else if (slot.subSlots - {key}).Keys == {} {
      DisposeWellformed(a, id);
    } else {
      DropSubWellformed(a, id, key);
    }
  }

  lemma ShrinkNestedWellformed(a: Assignment, id: SlotId, key: GroupKey, h: nat)
    requires Wellformed(a) && id in a.slots && key in a.slots[id].subSlots
    requires a.slots[id].subSlots[key].CoLocationSlot? && a.slots[id].subSlots[key].handles - {h} != {}
    ensures var slot := a.slots[id]; var sub := slot.subSlots[key];
      Wellformed(a.(slots := a.slots[id := slot.(subSlots := slot.subSlots[key := sub.(handles := sub.handles - {h})])]))
  {
    var slot := a.slots[id];
    var sub := slot.subSlots[key];
    var b := a.(slots := a.slots[id := slot.(subSlots := slot.subSlots[key := sub.(handles := sub.handles - {h})])]);
    assert forall i, k :: Hosts(b, i, k) <==> Hosts(a, i, k);
    assert b.slots.Keys == a.slots.Keys;
  }

  lemma DisposeWellformed(a: Assignment, id: SlotId)
    requires Wellformed(a) && id in a.slots
    ensures Wellformed(Dispose(a, id))
  {
    DisposeOrder(a, id);
    DisposeSlots(a, id);
    DisposeOffered(a, id);
    DisposeHosts(a, id);
  }

  lemma DisposeOrder(a: Assignment, id: SlotId)
    requires Wellformed(a) && id in a.slots
    ensures Distinct(Dispose(a, id).order)
    ensures forall i :: i in Dispose(a, id).order <==> i in Dispose(a, id).slots
  {
    RemoveFirstDistinct(a.order, id);
  }

  lemma DisposeSlots(a: Assignment, id: SlotId)
    requires Wellformed(a) && id in a.slots
    ensures forall i :: i in Dispose(a, id).slots ==> SlotFits(Dispose(a, id).slots[i])
  {
    var b := Dispose(a, id);
    forall i | i in b.slots ensures SlotFits(b.slots[i]) {
      assert b.slots[i] == a.slots[i];
    }
  }

  lemma DisposeOffered(a: Assignment, id: SlotId)
    requires Wellformed(a) && id in a.slots
    ensures forall k :: k in Dispose(a, id).available ==> Distinct(Dispose(a, id).available[k])
    ensures forall k, i :: k in Dispose(a, id).available ==>
      (i in Dispose(a, id).available[k] <==> i in Dispose(a, id).slots && !Hosts(Dispose(a, id), i, k))
  {
    var b := Dispose(a, id);
    forall k | k in b.available ensures Distinct(b.available[k]) {
      RemoveFirstDistinct(a.available[k], id);
    }
    forall k, i | k in b.available ensures i in b.available[k] <==> i in b.slots && !Hosts(b, i, k) {
      RemoveFirstDistinct(a.available[k], id);
      assert Hosts(b, i, k) <==> Hosts(a, i, k) && i != id;
    }
  }

  lemma DisposeHosts(a: Assignment, id: SlotId)
    requires Wellformed(a) && id in a.slots
    ensures forall k, i :: Hosts(Dispose(a, id), i, k) ==> k in Dispose(a, id).available
  {
    var b := Dispose(a, id);
    forall k, i | Hosts(b, i, k) ensures k in b.available {
      assert Hosts(a, i, k);
    }
  }

  lemma DropSubWellformed(a: Assignment, id: SlotId, key: GroupKey)
    requires Wellformed(a) && id in a.slots && key in a.slots[id].subSlots
    requires (a.slots[id].subSlots - {key}).Keys != {}
    ensures var slot := a.slots[id];
      Wellformed(a.(slots := a.slots[id := slot.(subSlots := slot.subSlots - {key})],
                    available := a.available[key := Eligible(a, key) + [id]]))
  {
    var slot := a.slots[id];
    var rest := slot.subSlots - {key};
    var b := a.(slots := a.slots[id := slot.(subSlots := rest)],
                available := a.available[key := Eligible(a, key) + [id]]);
    assert Hosts(a, id, key);
    assert key in a.available;
    assert id !in a.available[key];
    forall i | i in b.slots ensures SlotFits(b.slots[i]) {
      if i != id {
        assert b.slots[i] == a.slots[i];
      } else {
        assert b.slots[id].subSlots == rest;
      }
    }
    forall k, i | k in b.available ensures i in b.available[k] <==> i in b.slots && !Hosts(b, i, k) {
      assert Hosts(b, i, k) <==> Hosts(a, i, k) && !(i == id && k == key);
      if k != key {
        assert b.available[k] == a.available[k];
      }
    }
    forall k, i | Hosts(b, i, k) ensures k in b.available {
      assert Hosts(a, i, k);
    }
  }
}
