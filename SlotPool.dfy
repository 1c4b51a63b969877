/**
 * The pool of raw slots contributed by registered TaskManager instances.
 *
 * Free raw slots are kept as a first-in first-out sequence of their locations:
 * a slot handed out without a location preference is the one that has been
 * free the longest, and a slot given back goes to the end.
 */
module SlotPool {
  import opened SchedulerTypes

  /** Sum of the slot counts of the registered instances. */
  function TotalCapacity(instances: seq<Instance>): nat
  {
    if instances == [] then 0
    else TotalCapacity(instances[..|instances| - 1]) + instances[|instances| - 1].slots
  }

  lemma TotalCapacityAppend(instances: seq<Instance>, inst: Instance)
    ensures TotalCapacity(instances + [inst]) == TotalCapacity(instances) + inst.slots
  {
    assert (instances + [inst])[..|instances|] == instances;
  }

  /** The raw slots of a newly registered instance, all free. */
  function FreshSlots(location: Location, n: nat): seq<Location>
  {
    seq(n, _ => location)
  }

  predicate Registered(instances: seq<Instance>, location: Location)
  {
    exists i :: 0 <= i < |instances| && instances[i].location == location
  }

  /** A raw slot taken from the pool: where it is, how it matches the request,
      and the free slots that remain. */
  datatype InstancePick = InstancePick(location: Location, locality: Locality, rest: seq<Location>)

  /** The first preferred location, in the caller's order, that has a free slot. */
  function FirstPreferredFree(free: seq<Location>, prefs: seq<Location>): Option<Location>
  {
    if prefs == [] then None
    else if prefs[0] in free then Some(prefs[0])
    else FirstPreferredFree(free, prefs[1..])
  }

  /** The location found is a preferred one with a free slot, and there is
      none exactly when no preferred location has one. */
  lemma {:induction false} FirstPreferredFreeSpec(free: seq<Location>, prefs: seq<Location>)
    ensures var r := FirstPreferredFree(free, prefs);
      && (r.Some? ==> r.value in prefs && r.value in free)
      && (r.None? <==> forall l :: l in prefs ==> l !in free)
  {
    if prefs != [] && prefs[0] !in free {
      FirstPreferredFreeSpec(free, prefs[1..]);
      assert forall l :: l in prefs <==> l == prefs[0] || l in prefs[1..];
    }
  }

  /** Preferences are honoured in order: whenever the location at position `j`
      has a free slot, the location found occurs at or before `j`. */
  lemma {:induction false} FirstPreferredFreeIsFirst(free: seq<Location>, prefs: seq<Location>, j: nat)
    requires j < |prefs| && prefs[j] in free
    ensures FirstPreferredFree(free, prefs).Some?
    ensures FirstPreferredFree(free, prefs).value in prefs[..j + 1]
  {
    if prefs[0] !in free {
      assert prefs[j] == prefs[1..][j - 1];
      FirstPreferredFreeIsFirst(free, prefs[1..], j - 1);
      assert prefs[1..][..j] == prefs[1..j + 1];
    }
  }

  /**
   * Take one free raw slot. With preferences, a slot at the first preferred
   * location that has one is taken and is local; failing that the request is
   * refused when only local slots will do, and otherwise the oldest free slot is
   * taken and is non-local. Without preferences the oldest free slot is taken
   * and the pick is unconstrained. Nothing free: no pick.
   */
  function FindInstance(free: seq<Location>, prefs: seq<Location>, localOnly: bool): Option<InstancePick>
  {
    if free == [] then None
    else if prefs == [] then Some(InstancePick(free[0], Unconstrained, free[1..]))
    else match FirstPreferredFree(free, prefs)
      case Some(l) => Some(InstancePick(l, Local, RemoveFirst(free, l)))
      case None =>
        if localOnly then None
        else Some(InstancePick(free[0], NonLocal, free[1..]))
  }

  /** A pick takes exactly one free slot, and its locality says how the slot
      relates to the preferences; no pick means nothing suitable was free. */
  lemma FindInstanceSpec(free: seq<Location>, prefs: seq<Location>, localOnly: bool)
    ensures var r := FindInstance(free, prefs, localOnly);
      && (r.None? <==> free == [] || (localOnly && prefs != [] && forall l :: l in prefs ==> l !in free))
      && (r.Some? ==> r.value.location in free)
      && (r.Some? ==> multiset(r.value.rest) + multiset{r.value.location} == multiset(free))
      && (r.Some? ==> (r.value.locality == Local <==> r.value.location in prefs))
      && (r.Some? ==> (r.value.locality == Unconstrained <==> prefs == []))
      && (r.Some? && r.value.locality == NonLocal ==> !localOnly && forall l :: l in prefs ==> l !in free)
  {
    FirstPreferredFreeSpec(free, prefs);
    if free != [] {
      assert free == [free[0]] + free[1..];
      assert free[0] in free;
      var l := FirstPreferredFree(free, prefs);
      if prefs != [] && l.Some? {
        RemoveFirstMultiset(free, l.value);
      }
    }
  }

  lemma {:induction false} RemoveFirstMultiset(s: seq<Location>, x: Location)
    requires x in s
    ensures multiset(RemoveFirst(s, x)) + multiset{x} == multiset(s)
  {
    assert s == [s[0]] + s[1..];
    if s[0] != x {
      RemoveFirstMultiset(s[1..], x);
    }
  }
}
