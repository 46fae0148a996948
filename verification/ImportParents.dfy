/** What the binding loop of an import leaves behind, and when it gives up. */
module ImportParents {
  import opened Wrappers
  import opened ImportRecords

  // ----- Grounded parent chains -----

  /** The `local:` chain of `r` reaches a parent outside the batch within `n` hops. */
  ghost predicate GroundedIn(records: seq<Record>, r: Record, n: nat)
    decreases n
  {
    !IsLocal(r.parent) || (n > 0 && exists k :: 0 <= k < |records| && records[k].localId == LocalPart(r.parent) && GroundedIn(records, records[k], n - 1))
  }

  ghost predicate Grounded(records: seq<Record>, r: Record) {
    exists n: nat :: GroundedIn(records, r, n)
  }

  // ----- The binding invariant -----

  /** `r` is bound to the row its destination and source id select, or to a new one. */
  ghost predicate Placed(store: Store, p: Progress, r: Record) {
    && r.sourceId != "" && r.localId != ""
    && r.localId in p.bindings && r.localId in p.destinations
    && (IsLocal(r.parent) ==> LocalPart(r.parent) in p.bindings)
    && p.destinations[r.localId] == ParentOf(p.bindings, r)
    && FindRow(store, p.destinations[r.localId], r).Found?
    && p.bindings[r.localId] == BoundTo(FindRow(store, p.destinations[r.localId], r).subject, r)
    && Identity(p, r) in p.identities
  }

  function Identity(p: Progress, r: Record): (string, string)
    requires r.localId in p.destinations
  {
    (Pure(p.destinations[r.localId]), r.sourceId)
  }

  /** Where a local parent stands in the binding order. */
  ghost predicate ParentsFirst(records: seq<Record>, order: seq<string>) {
    forall r, i :: r in records && 0 <= i < |order| && order[i] == r.localId && IsLocal(r.parent) ==> LocalPart(r.parent) in order[..i]
  }

  ghost predicate OnceEach(order: seq<string>) {
    forall i, j :: 0 <= i < j < |order| ==> order[i] != order[j]
  }

  ghost predicate Apart(records: seq<Record>, p: Progress) {
    forall r, t :: r in records && t in records && r.localId in p.destinations && t.localId in p.destinations && r != t ==> Identity(p, r) != Identity(p, t)
  }

  ghost predicate OrderMatches(records: seq<Record>, p: Progress) {
    && p.bindings.Keys == p.destinations.Keys
    && (forall id :: id in p.order <==> id in p.bindings)
    && OnceEach(p.order)
    && ParentsFirst(records, p.order)
    && forall id :: id in p.order ==> exists r :: r in records && r.localId == id
  }

  ghost predicate PlacedBeside(store: Store, records: seq<Record>, p: Progress, pending: seq<Record>) {
    forall r :: r in records && r !in pending ==> Placed(store, p, r)
  }

  ghost predicate StillUnbound(records: seq<Record>, p: Progress, pending: seq<Record>) {
    forall r :: r in pending ==> r in records && r.localId !in p.bindings
  }

  /** Every record is either still pending or placed. */
  ghost predicate Tracks(store: Store, records: seq<Record>, p: Progress, pending: seq<Record>) {
    && OrderMatches(records, p)
    && Apart(records, p)
    && PlacedBeside(store, records, p, pending)
    && StillUnbound(records, p, pending)
    && DistinctLocalIds(records) && DistinctLocalIds(pending)
  }

  lemma SameRecord(records: seq<Record>, r: Record, t: Record)
    requires DistinctLocalIds(records) && r in records && t in records && r.localId == t.localId
    ensures r == t
  {
  }

  lemma BindingKeepsPlaces(store: Store, p: Progress, next: Progress, r: Record, t: Record)
    requires VisitRecord(store, p, r) == Bound(next) && r.localId !in p.bindings && p.bindings.Keys == p.destinations.Keys
    requires Placed(store, p, t)
    ensures Placed(store, next, t)
  {
    hide FindRow;
  }

  lemma BoundIsPlaced(store: Store, p: Progress, next: Progress, r: Record)
    requires VisitRecord(store, p, r) == Bound(next) && r.localId !in p.bindings && p.bindings.Keys == p.destinations.Keys
    ensures Placed(store, next, r) && Identity(next, r) !in p.identities
  {
    hide FindRow, Pure;
    if IsLocal(r.parent) {
      assert LocalPart(r.parent) in p.bindings;
    }
  }

  lemma BindingKeepsOrder(store: Store, records: seq<Record>, p: Progress, next: Progress, r: Record)
    requires VisitRecord(store, p, r) == Bound(next) && r.localId !in p.bindings && r in records && DistinctLocalIds(records)
    requires OrderMatches(records, p)
    ensures OrderMatches(records, next)
  {
    hide FindRow, Pure;
    assert next.order == p.order + [r.localId];
    forall t, i | t in records && 0 <= i < |next.order| && next.order[i] == t.localId && IsLocal(t.parent)
      ensures LocalPart(t.parent) in next.order[..i]
    {
      assert next.order[..i] == p.order[..i];
      if i == |p.order| {
        SameRecord(records, r, t);
        assert p.order[..i] == p.order;
      } else {
        assert p.order[i] == t.localId;
      }
    }
  }

  lemma BindingKeepsApart(store: Store, records: seq<Record>, p: Progress, next: Progress, r: Record)
    requires VisitRecord(store, p, r) == Bound(next) && r.localId !in p.bindings && r in records && DistinctLocalIds(records)
    requires p.bindings.Keys == p.destinations.Keys && Apart(records, p)
    requires forall t :: t in records && t.localId in p.bindings ==> Placed(store, p, t)
    ensures Apart(records, next)
  {
    BoundIsPlaced(store, p, next, r);
    assert next.destinations.Keys == p.destinations.Keys + {r.localId};
    assert forall t :: t in records && t.localId in p.bindings ==> Identity(p, t) in p.identities;
    assert forall t :: t in records && t.localId in p.bindings ==> Identity(next, t) == Identity(p, t);
    hide VisitRecord, FindRow, Pure, Placed, Identity;
    forall t, u | t in records && u in records && t.localId in next.destinations && u.localId in next.destinations && t != u
      ensures Identity(next, t) != Identity(next, u)
    {
      if t.localId == r.localId {
        SameRecord(records, t, r);
      }
      if u.localId == r.localId {
        SameRecord(records, u, r);
      }
    }
  }

  lemma BindingKeepsAllPlaces(store: Store, records: seq<Record>, p: Progress, next: Progress, pending: seq<Record>, k: nat)
    requires PlacedBeside(store, records, p, pending) && StillUnbound(records, p, pending) && k < |pending|
    requires p.bindings.Keys == p.destinations.Keys && VisitRecord(store, p, pending[k]) == Bound(next)
    ensures PlacedBeside(store, records, next, pending[..k] + pending[k + 1..])
  {
    var r := pending[k];
    assert r in pending;
    BoundIsPlaced(store, p, next, r);
    Dropping(pending, k);
    hide Placed, VisitRecord;
    forall t | t in records && t !in pending
      ensures Placed(store, next, t)
    {
      BindingKeepsPlaces(store, p, next, r, t);
    }
  }

  lemma BindingKeepsUnbound(store: Store, records: seq<Record>, p: Progress, next: Progress, pending: seq<Record>, k: nat)
    requires StillUnbound(records, p, pending) && DistinctLocalIds(pending) && k < |pending|
    requires VisitRecord(store, p, pending[k]) == Bound(next)
    ensures StillUnbound(records, next, pending[..k] + pending[k + 1..])
  {
    assert next.bindings.Keys == p.bindings.Keys + {pending[k].localId};
    hide VisitRecord;
    Dropping(pending, k);
    DroppingKeepsDistinct(pending, k);
  }

  lemma BoundWasPlaced(store: Store, records: seq<Record>, p: Progress, pending: seq<Record>)
    requires PlacedBeside(store, records, p, pending) && StillUnbound(records, p, pending)
    ensures forall t :: t in records && t.localId in p.bindings ==> Placed(store, p, t)
  {
    hide Placed;
  }

  lemma BindingTracks(store: Store, records: seq<Record>, p: Progress, next: Progress, pending: seq<Record>, k: nat)
    requires Tracks(store, records, p, pending) && k < |pending|
    requires VisitRecord(store, p, pending[k]) == Bound(next)
    ensures Tracks(store, records, next, pending[..k] + pending[k + 1..])
  {
    var r := pending[k];
    assert p.bindings.Keys == p.destinations.Keys && r in pending && r in records && r.localId !in p.bindings;
    BoundWasPlaced(store, records, p, pending);
    hide VisitRecord, Placed, OrderMatches, Apart, PlacedBeside, StillUnbound, DistinctLocalIds;
    BindingKeepsOrder(store, records, p, next, r);
    BindingKeepsAllPlaces(store, records, p, next, pending, k);
    BindingKeepsUnbound(store, records, p, next, pending, k);
    BindingKeepsApart(store, records, p, next, r);
    DroppingKeepsDistinct(pending, k);
  }

  lemma Dropping(pending: seq<Record>, k: nat)
    requires k < |pending|
    ensures forall t :: t in pending <==> t in pending[..k] + pending[k + 1..] || t == pending[k]
  {
    forall t | t in pending && t != pending[k]
      ensures t in pending[..k] + pending[k + 1..]
    {
      var i :| 0 <= i < |pending| && pending[i] == t;
      if i < k {
        assert t in pending[..k];
      } else {
        assert pending[k + 1..][i - k - 1] == t;
      }
    }
  }

  lemma DroppingKeepsDistinct(pending: seq<Record>, k: nat)
    requires k < |pending| && DistinctLocalIds(pending)
    ensures DistinctLocalIds(pending[..k] + pending[k + 1..])
    ensures forall t :: t in pending[..k] + pending[k + 1..] ==> t.localId != pending[k].localId
  {
    var rest := pending[..k] + pending[k + 1..];
    assert forall i :: 0 <= i < |rest| ==> rest[i] == pending[if i < k then i else i + 1];
  }

  lemma {:induction false} SweepTracks(store: Store, records: seq<Record>, p: Progress, kept: seq<Record>, todo: seq<Record>)
    requires Tracks(store, records, p, kept + todo)
    requires SweepOnce(store, p, todo).Swept?
    ensures var s := SweepOnce(store, p, todo); Tracks(store, records, s.progress, kept + s.left)
    decreases |todo|
  {
    hide Tracks, VisitRecord;
    if todo != [] {
      match VisitRecord(store, p, todo[0])
      case Skipped =>
        assert kept + todo == (kept + [todo[0]]) + todo[1..];
        SweepTracks(store, records, p, kept + [todo[0]], todo[1..]);
        var rest := SweepOnce(store, p, todo[1..]);
        assert kept + ([todo[0]] + rest.left) == (kept + [todo[0]]) + rest.left;
      case Bound(next) =>
        BindingTracks(store, records, p, next, kept + todo, |kept|);
        assert (kept + todo)[..|kept|] + (kept + todo)[|kept| + 1..] == kept + todo[1..];
        SweepTracks(store, records, next, kept, todo[1..]);
      case stop =>
    }
  }

  /** A pass that leaves every record pending bound nothing: each waits for an unbound parent. */
  lemma {:induction false} IdlePass(store: Store, p: Progress, todo: seq<Record>)
    requires SweepOnce(store, p, todo).Swept? && |SweepOnce(store, p, todo).left| == |todo|
    ensures SweepOnce(store, p, todo) == Swept(p, todo)
    ensures forall r :: r in todo ==> IsLocal(r.parent) && LocalPart(r.parent) !in p.bindings
    decreases |todo|
  {
    if todo != [] {
      assert VisitRecord(store, p, todo[0]).Skipped?;
      IdlePass(store, p, todo[1..]);
    }
  }

  lemma {:induction false} StuckIsUngrounded(store: Store, records: seq<Record>, p: Progress, pending: seq<Record>, r: Record, n: nat)
    requires Tracks(store, records, p, pending) && r in pending
    requires forall t :: t in pending ==> IsLocal(t.parent) && LocalPart(t.parent) !in p.bindings
    ensures !GroundedIn(records, r, n)
    decreases n
  {
    if n > 0 {
      forall k | 0 <= k < |records| && records[k].localId == LocalPart(r.parent)
        ensures !GroundedIn(records, records[k], n - 1)
      {
        assert records[k] in pending;
        StuckIsUngrounded(store, records, p, pending, records[k], n - 1);
      }
    }
  }

  lemma ParentIsEarlier(records: seq<Record>, p: Progress, i: nat, r: Record) returns (j: nat, k: nat)
    requires OrderMatches(records, p) && i < |p.order| && r in records && r.localId == p.order[i] && IsLocal(r.parent)
    ensures j < i && k < |records| && records[k].localId == p.order[j] == LocalPart(r.parent)
  {
    var up := LocalPart(r.parent);
    assert up in p.order[..i];
    j :| j < i && p.order[j] == up;
    assert up in p.order;
    var t :| t in records && t.localId == up;
    k :| k < |records| && records[k] == t;
  }

  lemma {:induction false} BoundIsGrounded(records: seq<Record>, p: Progress, i: nat, r: Record)
    requires OrderMatches(records, p) && i < |p.order| && r in records && r.localId == p.order[i]
    ensures GroundedIn(records, r, i)
    decreases i
  {
    hide OrderMatches, LocalPart, IsLocal;
    if IsLocal(r.parent) {
      var j, k := ParentIsEarlier(records, p, i, r);
      BoundIsGrounded(records, p, j, records[k]);
      Deeper(records, records[k], j, i - 1);
    }
  }

  lemma {:induction false} Deeper(records: seq<Record>, r: Record, n: nat, m: nat)
    requires GroundedIn(records, r, n) && n <= m
    ensures GroundedIn(records, r, m)
    decreases n
  {
    if IsLocal(r.parent) {
      var k :| 0 <= k < |records| && records[k].localId == LocalPart(r.parent) && GroundedIn(records, records[k], n - 1);
      Deeper(records, records[k], n - 1, m - 1);
    }
  }

  lemma {:induction false} StopIsNoCycle(store: Store, p: Progress, todo: seq<Record>)
    requires SweepOnce(store, p, todo).Stopped?
    ensures SweepOnce(store, p, todo).visit != Failed(CYCLE)
    decreases |todo|
  {
    if todo != [] {
      assert |CYCLE| == 19 && |"Duplicate destination/source identity in import batch"| == 53;
      assert |"Import records need sourceId and localId"| == 40;
      match VisitRecord(store, p, todo[0])
      case Skipped => StopIsNoCycle(store, p, todo[1..]);
      case Bound(next) => StopIsNoCycle(store, next, todo[1..]);
      case stop =>
    }
  }

  ghost predicate AllGrounded(records: seq<Record>) {
    forall r :: r in records ==> Grounded(records, r)
  }

  lemma AllBoundIsGrounded(store: Store, records: seq<Record>, p: Progress)
    requires Tracks(store, records, p, [])
    ensures AllGrounded(records)
  {
    assert OrderMatches(records, p);
    forall r | r in records
      ensures Grounded(records, r)
    {
      assert Placed(store, p, r);
      assert r.localId in p.order;
      var i :| 0 <= i < |p.order| && p.order[i] == r.localId;
      hide Tracks, Placed, OrderMatches, PlacedBeside;
      BoundIsGrounded(records, p, i, r);
    }
  }

  lemma StuckIsCycle(store: Store, records: seq<Record>, p: Progress, pending: seq<Record>)
    requires Tracks(store, records, p, pending) && pending != []
    requires SweepOnce(store, p, pending).Swept? && |SweepOnce(store, p, pending).left| == |pending|
    ensures !AllGrounded(records)
  {
    var r := pending[0];
    assert StillUnbound(records, p, pending) && r in pending;
    hide Tracks, SweepOnce;
    IdlePass(store, p, pending);
    forall n: nat
      ensures !GroundedIn(records, r, n)
    {
      StuckIsUngrounded(store, records, p, pending, r, n);
    }
  }

  lemma {:induction false} RoundsEnd(store: Store, records: seq<Record>, p: Progress, pending: seq<Record>)
    requires Tracks(store, records, p, pending)
    ensures var v := Rounds(store, p, pending);
      && (v.Bound? ==> Tracks(store, records, v.progress, []) && AllGrounded(records))
      && (v == Failed(CYCLE) ==> !AllGrounded(records))
    decreases |pending|
  {
    hide Tracks, AllGrounded, SweepOnce;
    if pending == [] {
      AllBoundIsGrounded(store, records, p);
    } else {
      match SweepOnce(store, p, pending)
      case Stopped(visit) => StopIsNoCycle(store, p, pending);
      case Swept(next, left) =>
        assert [] + pending == pending && [] + left == left;
        SweepTracks(store, records, p, [], pending);
        if |left| == |pending| {
          StuckIsCycle(store, records, p, pending);
        } else {
          RoundsEnd(store, records, next, left);
        }
    }
  }

  lemma NothingTracked(store: Store, records: seq<Record>)
    requires DistinctLocalIds(records)
    ensures Tracks(store, records, NOTHING_BOUND, records)
  {
  }

  /** When no other check stops the import, it reports a parent cycle exactly when
      some record's parent chain never leaves the batch. */
  lemma CycleExactly(store: Store, records: seq<Record>)
    requires BindAll(store, records).Bound? || BindAll(store, records) == Failed(CYCLE)
    ensures BindAll(store, records) == Failed(CYCLE) <==> !AllGrounded(records)
  {
    assert |CYCLE| == 19 && |"Duplicate localId in import batch"| == 33;
    NothingTracked(store, records);
    RoundsEnd(store, records, NOTHING_BOUND, records);
  }

  /** A batch that binds has every record bound once, after its parent in the batch. */
  lemma BoundParentsFirst(store: Store, records: seq<Record>)
    requires BindAll(store, records).Bound?
    ensures var p := BindAll(store, records).progress;
      && OnceEach(p.order)
      && (forall id :: id in p.order <==> id in p.bindings)
      && (forall id :: id in p.order <==> exists r :: r in records && r.localId == id)
      && ParentsFirst(records, p.order)
      && (forall r :: r in records ==> Placed(store, p, r))
      && Apart(records, p)
  {
    NothingTracked(store, records);
    RoundsEnd(store, records, NOTHING_BOUND, records);
    var p := BindAll(store, records).progress;
    assert OrderMatches(records, p);
    assert forall r :: r in records ==> Placed(store, p, r);
    forall r | r in records
      ensures r.localId in p.order
    {
      assert Placed(store, p, r);
    }
    hide Placed, Apart, ParentsFirst, BindAll;
  }
}
