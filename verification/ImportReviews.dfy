/** Reviewed duplicates, and what stops an import. */
module ImportReviews {
  import opened Wrappers
  import opened ImportRecords
  import opened ImportParents
  import opened ImportStore

  // ----- Reviews -----

  /** Bookkeeping a reviewer does not look at, besides the review itself. */
  ghost predicate SnapshotOf(m: Row, row: Row) {
    && m.parent == row.parent && m.isA == row.isA && m.localId == row.localId && m.baseline == row.baseline && m.resolution == NoResolution
    && forall p :: Lookup(m.values, p) == if p in BOOKKEEPING then None else Lookup(row.values, p)
  }

  /** The review stored with `s` chose `s` among exactly these rows, which still are
      as they were reviewed; and it knows of every other review among them. */
  ghost predicate SettledBy(store: Store, matches: set<Subject>, s: Subject)
    requires matches <= store.Keys
  {
    && s in matches && store[s].resolution.Reviewed?
    && var review := store[s].resolution;
       && review.canonical == Pure(s) && |review.members| == |matches|
       && forall t :: t in matches ==>
            && Pure(t) in review.members
            && (t != s ==> SnapshotOf(review.members[Pure(t)], store[t]) && (store[t].resolution.Reviewed? ==> store[t].resolution.id in review.supersedes))
  }

  /** One review alone settles the rows. */
  ghost predicate SettledOnlyBy(store: Store, matches: set<Subject>, s: Subject)
    requires matches <= store.Keys
  {
    SettledBy(store, matches, s) && forall t :: t in matches && SettledBy(store, matches, t) ==> t == s
  }

  lemma SnapshotIs(m: Row, row: Row)
    ensures m == Snapshot(row) <==> SnapshotOf(m, row)
  {
    forall p ensures Lookup(Snapshot(row).values, p) == if p in BOOKKEEPING then None else Lookup(row.values, p) {
    }
    hide BOOKKEEPING;
    if SnapshotOf(m, row) {
      SameMap(m.values, Snapshot(row).values);
    }
  }

  lemma SameMap(a: map<Property, Value>, b: map<Property, Value>)
    requires forall p :: Lookup(a, p) == Lookup(b, p)
    ensures a == b
  {
    forall p ensures p in a <==> p in b {
      assert Lookup(a, p) == Lookup(b, p);
    }
    forall p | p in a ensures a[p] == b[p] {
      assert Lookup(a, p) == Lookup(b, p);
    }
  }

  lemma WinsIs(store: Store, matches: set<Subject>, s: Subject)
    requires matches <= store.Keys && s in matches
    ensures Wins(store, matches, s) <==> SettledBy(store, matches, s)
  {
    if store[s].resolution.Reviewed? {
      var review := store[s].resolution;
      forall t | t in matches && Pure(t) in review.members
        ensures review.members[Pure(t)] == Snapshot(store[t]) <==> SnapshotOf(review.members[Pure(t)], store[t])
      {
        SnapshotIs(review.members[Pure(t)], store[t]);
      }
    }
    hide Pure, Snapshot, SnapshotOf;
  }

  /** Rows that need a review are one record exactly where a single review still
      covers them all as they stand; otherwise the import stops and names them. */
  lemma ReviewDecides(store: Store, parent: Subject, r: Record)
    requires NeedsReview(store, Matches(store, parent, r))
    ensures var matches := Matches(store, parent, r);
      && (forall s :: s in matches && SettledOnlyBy(store, matches, s) ==> FindRow(store, parent, r) == Fits(s, store[s], r))
      && ((forall s :: s in matches ==> !SettledOnlyBy(store, matches, s)) ==> FindRow(store, parent, r) == Ambiguous(matches))
  {
    var matches := Matches(store, parent, r);
    forall s | s in matches ensures ResolvesTo(store, matches, s) <==> SettledOnlyBy(store, matches, s) {
      forall t | t in matches ensures Wins(store, matches, t) <==> SettledBy(store, matches, t) {
        WinsIs(store, matches, t);
      }
      OneMatch(matches, s);
    }
    hide Matches, Wins, SettledBy, Fits;
  }

  lemma OneMatch(matches: set<Subject>, s: Subject)
    requires s in matches
    ensures |matches| == 1 ==> matches == {s}
  {
    if |matches| == 1 {
      assert |matches - {s}| == 0;
      assert matches == {s} + (matches - {s});
    }
  }

  // ----- What stops an import -----

  /** The record can be imported onto the rows that were bound. */
  ghost predicate Importable(store: Store, p: Progress, r: Record) {
    && (forall q :: q in r.values ==> q !in METADATA) && AllResolve(p.bindings, r.values)
    && r.localId in p.bindings && r.localId in p.destinations
    && (!IsLocal(p.bindings[r.localId]) ==> p.bindings[r.localId] in store && !store[p.bindings[r.localId]].baseline.InvalidBaseline?)
  }

  /** A bound batch is imported exactly when no record sets import metadata, every
      reference names a record of the batch, and every row found has a valid baseline. */
  lemma {:induction false} ImportsExactly(store: Store, p: Progress, records: seq<Record>)
    ensures ImportEach(store, p, records).Ok? <==> forall k :: 0 <= k < |records| ==> Importable(store, p, records[k])
    decreases |records|
  {
    hide Importable, ImportOne;
    if records != [] {
      var n := |records| - 1;
      ImportsExactly(store, p, records[..n]);
      forall report ensures ImportOne(store, p, report, records[n]).Ok? <==> Importable(store, p, records[n]) {
        OneImports(store, p, report, records[n]);
      }
      if forall k :: 0 <= k < n ==> Importable(store, p, records[..n][k]) {
        assert forall k :: 0 <= k < n ==> records[..n][k] == records[k];
      }
    }
  }

  lemma OneImports(store: Store, p: Progress, report: Report, r: Record)
    ensures ImportOne(store, p, report, r).Ok? <==> Importable(store, p, r)
  {
    hide AllResolve, MergeRow;
    hide METADATA;
    if forall q :: q in r.values ==> q !in METADATA {
      assert r.values.Keys * METADATA == {};
    }
    if r.values.Keys * METADATA == {} {
      forall q | q in r.values ensures q !in METADATA {
        assert q !in r.values.Keys * METADATA;
      }
    }
  }
}
