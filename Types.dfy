/**
 * Identifiers, request shapes and outcomes shared by the slot scheduler model.
 *
 * TaskManager locations, job vertices, slot-sharing groups and co-location groups
 * are plain identifiers; only their equality matters to the scheduler.
 */
module SchedulerTypes {

  /** The ResourceID of a TaskManager: where a slot physically lives. */
  type Location = nat
  type VertexId = nat
  type SharingGroupId = nat
  type CoLocationGroupId = nat
  type SlotId = nat

  datatype Option<T> = None | Some(value: T)

  datatype Result<T, E> = Success(value: T) | Failure(error: E)

  /** The only way a non-queued allocation fails. */
  datatype SchedulingError = NoResourceAvailable

  /** One CoLocationConstraint of a CoLocationGroup (one per subtask index). */
  datatype Constraint = Constraint(group: CoLocationGroupId, index: nat)

  /** What a ScheduledUnit carries besides its vertex: no sharing group, a sharing
      group, or a sharing group together with a co-location constraint. */
  datatype Sharing =
    | Unshared
    | Shared(group: SharingGroupId)
    | CoLocated(group: SharingGroupId, constraint: Constraint)

  datatype ScheduledUnit = ScheduledUnit(vertex: VertexId, sharing: Sharing)

  /** How an allocation relates to the caller's preferred locations. */
  datatype Locality = Local | NonLocal | Unconstrained

  /** A worker as it registers: its location and its fixed number of slots. */
  datatype Instance = Instance(location: Location, slots: nat)

  /** The handle the caller receives: a key into the scheduler's slot records,
      the location of the slot and how that location matched the request. */
  datatype LogicalSlot = LogicalSlot(id: nat, location: Location, locality: Locality)

  /** The state of a co-location constraint as the caller sees it. */
  datatype Binding = Unresolved | Resolved(location: Location)

  /** `s` without its first occurrence of `x`. */
  function RemoveFirst<T(==)>(s: seq<T>, x: T): seq<T>
  {
    if s == [] then []
    else if s[0] == x then s[1..]
    else [s[0]] + RemoveFirst(s[1..], x)
  }

  /** No element occurs twice. */
  predicate Distinct<T(==)>(s: seq<T>)
  {
    forall i, j :: 0 <= i < j < |s| ==> s[i] != s[j]
  }

  lemma {:induction false} RemoveFirstDistinct<T>(s: seq<T>, x: T)
    requires Distinct(s)
    ensures Distinct(RemoveFirst(s, x))
    ensures forall y :: y in RemoveFirst(s, x) <==> y in s && y != x
    ensures x in s ==> |RemoveFirst(s, x)| == |s| - 1
    ensures x !in s ==> RemoveFirst(s, x) == s
  {
    if s != [] && s[0] != x {
      RemoveFirstDistinct(s[1..], x);
      assert s == [s[0]] + s[1..];
      var r := RemoveFirst(s[1..], x);
      forall i, j | 0 <= i < j < |[s[0]] + r| ensures ([s[0]] + r)[i] != ([s[0]] + r)[j] {
        if i == 0 {
          assert ([s[0]] + r)[j] == r[j - 1];
          assert r[j - 1] in r;
          assert s[0] !in s[1..] by {
            forall k | 0 <= k < |s[1..]| ensures s[1..][k] != s[0] { assert s[1..][k] == s[k + 1]; }
          }
        }
      }
    }
  }

  lemma FirstIsMember<T>(s: seq<T>)
    requires |s| > 0
    ensures s[0] in s
  {
  }

  /** A sequence with no members is empty. */
  lemma NoMembersEmpty<T>(s: seq<T>)
    requires forall x :: x !in s
    ensures s == []
  {
    if |s| > 0 {
      FirstIsMember(s);
      assert false;
    }
  }

  function Members<T>(s: seq<T>): set<T>
  {
    set x | x in s
  }

  /** A sequence without repetitions has as many members as elements. */
  lemma {:induction false} DistinctCardinality<T>(s: seq<T>)
    requires Distinct(s)
    ensures |Members(s)| == |s|
  {
    if s != [] {
      DistinctCardinality(s[1..]);
      assert Members(s) == Members(s[1..]) + {s[0]};
      assert s[0] !in s[1..];
    }
  }
}
