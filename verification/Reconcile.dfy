/** Three-way reconciliation of one record against its saved baseline. */
module Reconcile {
  import opened Wrappers

  /** What is known of a record: never seen (`undefined`), deleted (`null`) or its members. */
  datatype Side<V> = Unseen | Deleted | Seen(fields: map<string, V>)

  datatype Clash<V> = Clash(base: Option<V>, local: Option<V>, remote: Option<V>)

  /** Patches map a property to its new value, or to `None` for `undefined`. */
  datatype Decision<V> = Decision(
    local: map<string, Option<V>>,
    remote: map<string, Option<V>>,
    createLocal: bool,
    createRemote: bool,
    deleteLocal: bool,
    deleteRemote: bool,
    clashes: map<string, Clash<V>>,
    recordClash: bool,
    agreed: Option<Side<V>>)
  {
    predicate HasConflict() {
      recordClash || clashes != map[]
    }

    /** The same decision seen from the other side. */
    function Swapped(): Decision<V> {
      Decision(remote, local, createRemote, createLocal, deleteRemote, deleteLocal,
               map p | p in clashes :: Clash(clashes[p].base, clashes[p].remote, clashes[p].local),
               recordClash, agreed)
    }
  }

  function Nothing<V>(): Decision<V> {
    Decision(map[], map[], false, false, false, false, map[], false, None)
  }

  function Member<V>(side: Side<V>, property: string): Option<V> {
    if side.Seen? && property in side.fields then Some(side.fields[property]) else None
  }

  function Properties<V>(side: Side<V>): set<string> {
    if side.Seen? then side.fields.Keys else {}
  }

  function AllProperties<V>(base: Side<V>, local: Side<V>, remote: Side<V>): set<string> {
    Properties(base) + Properties(local) + Properties(remote)
  }

  /** Which of the three values of one property wins. */
  datatype Verdict = Same | TakeRemote | TakeLocal | Conflicting

  function Judge<V(==)>(base: Side<V>, local: Side<V>, remote: Side<V>, p: string): Verdict {
    var before, here, there := Member(base, p), Member(local, p), Member(remote, p);
    if here == there then Same
    else if here == before then TakeRemote
    else if there == before then TakeLocal
    else Conflicting
  }

  /** The member-by-member part of the decision over the properties in `scope`. */
  ghost function Members<V>(base: Side<V>, local: Side<V>, remote: Side<V>, scope: set<string>, d: Decision<V>): Decision<V> {
    d.(local := Taken(base, local, remote, scope, TakeRemote),
       remote := Taken(base, local, remote, scope, TakeLocal),
       clashes := Clashes(base, local, remote, scope))
  }

  ghost function Taken<V>(base: Side<V>, local: Side<V>, remote: Side<V>, scope: set<string>, v: Verdict): (m: map<string, Option<V>>)
    ensures forall p :: p in m <==> p in scope && Judge(base, local, remote, p) == v
    ensures forall p :: p in m ==> m[p] == Member(if v == TakeRemote then remote else local, p)
  {
    if scope == {} then map[]
    else
      var p :| p in scope;
      var rest := Taken(base, local, remote, scope - {p}, v);
      if Judge(base, local, remote, p) == v then rest[p := Member(if v == TakeRemote then remote else local, p)] else rest
  }

  ghost function Clashes<V>(base: Side<V>, local: Side<V>, remote: Side<V>, scope: set<string>): (m: map<string, Clash<V>>)
    ensures forall p :: p in m <==> p in scope && Judge(base, local, remote, p) == Conflicting
    ensures forall p :: p in m ==> m[p] == Clash(Member(base, p), Member(local, p), Member(remote, p))
  {
    if scope == {} then map[]
    else
      var p :| p in scope;
      var rest := Clashes(base, local, remote, scope - {p});
      if Judge(base, local, remote, p) == Conflicting then rest[p := Clash(Member(base, p), Member(local, p), Member(remote, p))] else rest
  }

  function Header<V>(base: Side<V>, local: Side<V>, remote: Side<V>): Decision<V> {
    Nothing<V>().(createLocal := base.Unseen? && local.Unseen? && !remote.Unseen?,
                  createRemote := base.Unseen? && remote.Unseen? && !local.Unseen?)
  }

  ghost function Decide<V>(base: Side<V>, local: Side<V>, remote: Side<V>): Decision<V> {
    if local == remote then
      if local.Unseen? then Nothing() else Nothing<V>().(agreed := Some(local))
    else if local.Deleted? || remote.Deleted? then
      if local == base && remote.Deleted? then Nothing<V>().(deleteLocal := true)
      else if remote == base && local.Deleted? then Nothing<V>().(deleteRemote := true)
      else Nothing<V>().(recordClash := true)
    else if !base.Unseen? && (local.Unseen? || remote.Unseen?) then Nothing()
    else Members(base, local, remote, AllProperties(base, local, remote), Header(base, local, remote))
  }

  lemma TakenGrow<V>(base: Side<V>, local: Side<V>, remote: Side<V>, scope: set<string>, p: string, v: Verdict)
    ensures Taken(base, local, remote, scope + {p}, v) ==
      if Judge(base, local, remote, p) == v
      then Taken(base, local, remote, scope, v)[p := Member(if v == TakeRemote then remote else local, p)]
      else Taken(base, local, remote, scope, v)
  {
    hide *;
    var before, after := Taken(base, local, remote, scope, v), Taken(base, local, remote, scope + {p}, v);
    var target := if Judge(base, local, remote, p) == v then before[p := Member(if v == TakeRemote then remote else local, p)] else before;
    assert forall q :: q in after <==> q in target;
    assert forall q :: q in after ==> after[q] == target[q];
    assert after == target;
  }

  lemma ClashesGrow<V>(base: Side<V>, local: Side<V>, remote: Side<V>, scope: set<string>, p: string)
    ensures Clashes(base, local, remote, scope + {p}) ==
      if Judge(base, local, remote, p) == Conflicting
      then Clashes(base, local, remote, scope)[p := Clash(Member(base, p), Member(local, p), Member(remote, p))]
      else Clashes(base, local, remote, scope)
  {
    hide *;
    var before, after := Clashes(base, local, remote, scope), Clashes(base, local, remote, scope + {p});
    var target := if Judge(base, local, remote, p) == Conflicting then before[p := Clash(Member(base, p), Member(local, p), Member(remote, p))] else before;
    assert forall q :: q in after <==> q in target;
    assert forall q :: q in after ==> after[q] == target[q];
    assert after == target;
  }

  lemma MembersOfNothing<V>(base: Side<V>, local: Side<V>, remote: Side<V>, d: Decision<V>)
    requires d.local == d.remote == map[] && d.clashes == map[]
    ensures Members(base, local, remote, {}, d) == d
  {
    var m := Members(base, local, remote, {}, d);
    assert m.local == map[] && m.remote == map[] && m.clashes == map[];
  }

  /** The property loop, one property after another in any order. */
  method ReconcileMembers<V(==)>(base: Side<V>, local: Side<V>, remote: Side<V>) returns (d: Decision<V>)
    ensures d == Members(base, local, remote, AllProperties(base, local, remote), Header(base, local, remote))
  {
    hide Taken, Clashes;
    d := Header(base, local, remote);
    var pending := AllProperties(base, local, remote);
    ghost var done: set<string> := {};
    MembersOfNothing(base, local, remote, d);
    while pending != {}
      invariant done + pending == AllProperties(base, local, remote) && done !! pending
      invariant d == Members(base, local, remote, done, Header(base, local, remote))
    {
      var property :| property in pending;
      TakenGrow(base, local, remote, done, property, TakeRemote);
      TakenGrow(base, local, remote, done, property, TakeLocal);
      ClashesGrow(base, local, remote, done, property);
      var before, here, there := Member(base, property), Member(local, property), Member(remote, property);
      if here == there {
      } else if here == before {
        d := d.(local := d.local[property := there]);
      } else if there == before {
        d := d.(remote := d.remote[property := here]);
      } else {
        d := d.(clashes := d.clashes[property := Clash(before, here, there)]);
      }
      pending, done := pending - {property}, done + {property};
    }
    assert done == AllProperties(base, local, remote);
  }

  method ReconcileRecord<V(==)>(base: Side<V>, local: Side<V>, remote: Side<V>) returns (d: Decision<V>)
    ensures d == Decide(base, local, remote)
  {
    d := Nothing();
    if local == remote {
      if !local.Unseen? {
        d := d.(agreed := Some(local));
      }
    } else if local.Deleted? || remote.Deleted? {
      if local == base && remote.Deleted? {
        d := d.(deleteLocal := true);
      } else if remote == base && local.Deleted? {
        d := d.(deleteRemote := true);
      } else {
        d := d.(recordClash := true);
      }
    } else if base.Unseen? || !(local.Unseen? || remote.Unseen?) {
      d := ReconcileMembers(base, local, remote);
    }
  }

  // ----- What a host makes of a decision -----

  function Patch<V>(fields: map<string, V>, patch: map<string, Option<V>>): map<string, V> {
    map p | p in fields.Keys + patch.Keys && (p in patch ==> patch[p].Some?) ::
      if p in patch then patch[p].value else fields[p]
  }

  function Carry<V>(side: Side<V>, patch: map<string, Option<V>>, create: bool, delete: bool): Side<V> {
    if delete then Deleted
    else if side.Seen? then Seen(Patch(side.fields, patch))
    else if create then Seen(Patch(map[], patch))
    else side
  }

  function LocalAfter<V>(local: Side<V>, d: Decision<V>): Side<V> {
    Carry(local, d.local, d.createLocal, d.deleteLocal)
  }

  function RemoteAfter<V>(remote: Side<V>, d: Decision<V>): Side<V> {
    Carry(remote, d.remote, d.createRemote, d.deleteRemote)
  }

  /** One side is missing although it was synced before: nothing may be inferred. */
  predicate Stalled<V>(base: Side<V>, local: Side<V>, remote: Side<V>) {
    !base.Unseen? && ((local.Unseen? && remote.Seen?) || (remote.Unseen? && local.Seen?))
  }

  lemma MemberAfter<V>(fields: map<string, V>, patch: map<string, Option<V>>, p: string)
    ensures Member(Seen(Patch(fields, patch)), p) == if p in patch then patch[p] else Member(Seen(fields), p)
  {
  }

  lemma SeenExtensional<V>(a: Side<V>, b: Side<V>)
    requires a.Seen? && b.Seen?
    requires forall p :: Member(a, p) == Member(b, p)
    ensures a == b
  {
    forall p ensures p in a.fields <==> p in b.fields {
      assert Member(a, p) == Member(b, p);
    }
    assert a.fields.Keys == b.fields.Keys;
    forall p | p in a.fields ensures a.fields[p] == b.fields[p] {
      assert Member(a, p) == Member(b, p);
    }
    assert a.fields == b.fields;
  }

  /** What each side holds for one property once a conflict-free decision is carried out. */
  lemma MembersAfter<V>(base: Side<V>, local: Side<V>, remote: Side<V>, p: string)
    requires local != remote && !local.Deleted? && !remote.Deleted?
    requires base.Unseen? || (local.Seen? && remote.Seen?)
    ensures var d := Decide(base, local, remote);
      var l, r := LocalAfter(local, d), RemoteAfter(remote, d);
      && l.Seen? && r.Seen?
      && (p in d.clashes <==> Judge(base, local, remote, p) == Conflicting)
      && Member(l, p) == (if Judge(base, local, remote, p) == TakeRemote then Member(remote, p) else Member(local, p))
      && Member(r, p) == (if Judge(base, local, remote, p) == TakeLocal then Member(local, p) else Member(remote, p))
  {
    var d := Decide(base, local, remote);
    if p !in AllProperties(base, local, remote) {
      assert Judge(base, local, remote, p) == Same;
    }
    MemberAfter(if local.Seen? then local.fields else map[], d.local, p);
    MemberAfter(if remote.Seen? then remote.fields else map[], d.remote, p);
  }

  /** Carrying out the decision makes both sides equal exactly when it reports
      no conflict and neither side of a synced record is merely unseen. */
  lemma Converges<V>(base: Side<V>, local: Side<V>, remote: Side<V>)
    ensures var d := Decide(base, local, remote);
      LocalAfter(local, d) == RemoteAfter(remote, d) <==> !d.HasConflict() && !Stalled(base, local, remote)
  {
    var d := Decide(base, local, remote);
    var l, r := LocalAfter(local, d), RemoteAfter(remote, d);
    if local == remote || local.Deleted? || remote.Deleted? {
      if local == remote && local.Seen? {
        assert Patch(local.fields, map[]) == local.fields;
      }
    } else if !base.Unseen? && (local.Unseen? || remote.Unseen?) {
    } else {
      if d.clashes != map[] {
        var p :| p in d.clashes;
        MembersAfter(base, local, remote, p);
        assert Member(l, p) != Member(r, p);
      } else {
        forall p ensures Member(l, p) == Member(r, p) {
          MembersAfter(base, local, remote, p);
        }
        MembersAfter(base, local, remote, "");
        SeenExtensional(l, r);
      }
    }
  }

  /** A change made on one side only reaches both sides, and where neither side
      changed a property it keeps its baseline value. */
  lemma KeepsOneSidedChanges<V>(base: Side<V>, local: Side<V>, remote: Side<V>, p: string)
    requires var d := Decide(base, local, remote); !d.HasConflict() && !Stalled(base, local, remote)
    requires !local.Deleted? && !remote.Deleted? && !(local.Unseen? && remote.Unseen?)
    ensures var merged := LocalAfter(local, Decide(base, local, remote));
      && merged.Seen?
      && (Member(remote, p) == Member(base, p) ==> Member(merged, p) == Member(local, p))
      && (Member(local, p) == Member(base, p) ==> Member(merged, p) == Member(remote, p))
      && (Member(merged, p) == Member(local, p) || Member(merged, p) == Member(remote, p))
  {
    if local == remote {
      assert Patch(local.fields, map[]) == local.fields;
    } else {
      MembersAfter(base, local, remote, p);
    }
  }

  /** A property is reported as conflicting exactly when both sides changed it, differently. */
  lemma ClashesExactly<V>(base: Side<V>, local: Side<V>, remote: Side<V>, p: string)
    requires local.Seen? && remote.Seen?
    ensures p in Decide(base, local, remote).clashes <==>
      Member(local, p) != Member(base, p) && Member(remote, p) != Member(base, p) && Member(local, p) != Member(remote, p)
  {
    if local != remote && base.Deleted? {
      assert AllProperties(base, local, remote) == Properties(local) + Properties(remote);
    }
    if p !in AllProperties(base, local, remote) {
      assert Member(local, p) == Member(remote, p);
    }
  }

  /** Once both sides hold the merged record, a further round only acknowledges it,
      and the acknowledged record is what both sides hold. */
  lemma Settles<V>(base: Side<V>, local: Side<V>, remote: Side<V>)
    requires var d := Decide(base, local, remote); !d.HasConflict() && !Stalled(base, local, remote)
    requires !(local.Unseen? && remote.Unseen?)
    ensures var d := Decide(base, local, remote);
      var l, r := LocalAfter(local, d), RemoteAfter(remote, d);
      forall later: Side<V> :: Decide(later, l, r) == Nothing<V>().(agreed := Some(l))
  {
    Converges(base, local, remote);
  }

  lemma SymmetricTaken<V>(base: Side<V>, local: Side<V>, remote: Side<V>, scope: set<string>)
    ensures Taken(base, remote, local, scope, TakeRemote) == Taken(base, local, remote, scope, TakeLocal)
  {
    var a, b := Taken(base, remote, local, scope, TakeRemote), Taken(base, local, remote, scope, TakeLocal);
    assert a.Keys == b.Keys;
  }

  lemma SymmetricClashes<V>(base: Side<V>, local: Side<V>, remote: Side<V>, scope: set<string>)
    ensures var c := Clashes(base, local, remote, scope);
      Clashes(base, remote, local, scope) == map p | p in c :: Clash(c[p].base, c[p].remote, c[p].local)
  {
    assert Clashes(base, remote, local, scope).Keys == Clashes(base, local, remote, scope).Keys;
  }

  lemma SymmetricMembers<V>(base: Side<V>, local: Side<V>, remote: Side<V>)
    ensures var scope := AllProperties(base, local, remote);
      Members(base, remote, local, AllProperties(base, remote, local), Header(base, remote, local)) ==
      Members(base, local, remote, scope, Header(base, local, remote)).Swapped()
  {
    var scope := AllProperties(base, local, remote);
    assert AllProperties(base, remote, local) == scope;
    SymmetricTaken(base, local, remote, scope);
    SymmetricTaken(base, remote, local, scope);
    SymmetricClashes(base, local, remote, scope);
  }

  /** Neither side is privileged. */
  lemma Symmetric<V>(base: Side<V>, local: Side<V>, remote: Side<V>)
    ensures Decide(base, remote, local) == Decide(base, local, remote).Swapped()
  {
    if local != remote && !local.Deleted? && !remote.Deleted? && (base.Unseen? || !(local.Unseen? || remote.Unseen?)) {
      SymmetricMembers(base, local, remote);
    }
  }

  /** What happens to a record as a whole. A deletion on one side reaches the other
      exactly where that one still holds the baseline, and otherwise is a conflict;
      a record is created only where it was never seen; equal sides agree; and a
      side that is merely unseen after a sync changes nothing. */
  lemma RecordsExactly<V>(base: Side<V>, local: Side<V>, remote: Side<V>)
    ensures var d := Decide(base, local, remote);
      && (d.deleteLocal <==> remote.Deleted? && !local.Deleted? && local == base)
      && (d.deleteRemote <==> local.Deleted? && !remote.Deleted? && remote == base)
      && (d.recordClash <==> (remote.Deleted? && !local.Deleted? && local != base) || (local.Deleted? && !remote.Deleted? && remote != base))
      && (d.createLocal <==> base.Unseen? && local.Unseen? && remote.Seen?)
      && (d.createRemote <==> base.Unseen? && remote.Unseen? && local.Seen?)
      && d.agreed == (if local == remote && !local.Unseen? then Some(local) else None)
      && (local == remote || local.Deleted? || remote.Deleted? || Stalled(base, local, remote) ==>
            d.local == map[] && d.remote == map[] && d.clashes == map[])
  {
    hide Taken, Clashes;
  }
}
