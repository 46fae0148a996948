/** A clean import can be repeated: every record is found again and left untouched. */
module ImportSettles {
  import opened Wrappers
  import opened ImportRecords
  import opened ImportParents
  import opened ImportStore
  import opened ImportHistory
  import opened ImportRepeat

  /** No two records of the batch were bound to one row. */
  ghost predicate OneRowEach(records: seq<Record>, p: Progress) {
    forall r, t :: r in records && t in records && r != t && r.localId in p.bindings && t.localId in p.bindings ==>
      p.bindings[r.localId] != p.bindings[t.localId]
  }

  /** No record of the batch met a conflict. */
  ghost predicate Smooth(store: Store, p: Progress, records: seq<Record>) {
    forall r :: r in records ==> SmoothOne(store, p, r)
  }

  ghost predicate SmoothOne(store: Store, p: Progress, r: Record) {
    && r.values.Keys * METADATA == {} && AllResolve(p.bindings, r.values)
    && r.localId in p.bindings
    && (OnRow(store, p, r, p.bindings[r.localId]) ==> !MergeRow(p.bindings[r.localId], store[p.bindings[r.localId]], r, Incoming(p, r)).Clashing?)
  }

  lemma {:induction false} CleanIsSmooth(store: Store, p: Progress, records: seq<Record>)
    requires ImportEach(store, p, records).Ok? && ImportEach(store, p, records).value.problems == []
    ensures Smooth(store, p, records)
    decreases |records|
  {
    hide MergeRow, AllResolve;
    if records != [] {
      var n := |records| - 1;
      CleanIsSmooth(store, p, records[..n]);
      assert SmoothOne(store, p, records[n]);
      hide SmoothOne;
      assert records == records[..n] + [records[n]];
    }
  }

  // ----- Every record is found again -----

  lemma AdoptedBySelf(store: Store, records: seq<Record>, p: Progress, mint: map<string, Subject>, after: Store, r: Record, s: Subject)
    requires Bindings(store, records, p, mint) && OldRows(store, records, p, mint, |records|, after)
    requires OneRowEach(records, p) && r in records && OnRow(store, p, r, s) && WriteTo(store, p, r, s).Some?
    ensures s in after && after[s] == RowBy(store, p, mint, s, Some(r))
  {
    hide Bindings, WriteTo, RowBy, OnRow;
    assert records[..|records|] == records;
    OnRowIsOld(store, p, r, s);
    OnRowMeans(store, p, r, s);
    var w := LastWriter(store, p, records, |records|, s);
    assert w.Some? && w.value in records;
    OnRowMeans(store, p, w.value, s);
  }

  lemma MergeAdopts(s: Subject, row: Row, r: Record, values: map<Property, Value>)
    requires TidyRow(row) && row.localId.None? && !MergeRow(s, row, r, values).Clashing?
    ensures MergeRow(s, row, r, values).Writes?
  {
    hide Judge;
  }

  lemma WriteExists(store: Store, p: Progress, r: Record, s: Subject)
    requires OnRow(store, p, r, s) && MergeRow(s, store[s], r, Incoming(p, r)).Writes?
    ensures WriteTo(store, p, r, s).Some?
  {
    hide MergeRow, Incoming;
  }

  lemma RowKeepsClasses(store: Store, p: Progress, mint: map<string, Subject>, s: Subject, w: Option<Record>)
    requires s in store && TidyRow(store[s])
    ensures RowBy(store, p, mint, s, w).isA == store[s].isA
  {
    if w.Some? && WriteTo(store, p, w.value, s).Some? {
      WriteIsMerge(store, p, s, w.value);
      WrittenRow(mint, s, store[s], w.value, Incoming(p, w.value));
    }
    hide WriteTo, SetRow;
  }

  /** After a clean import every record's row carries its identity and classes. */
  ghost predicate Holds(after: Store, p: Progress, mint: map<string, Subject>, r: Record)
    requires r.localId in p.bindings && r.localId in p.destinations
  {
    var s, d := Target(p, mint, r), Destination(p, mint, r);
    && s in after && !IsLocal(d) && s in BySource(after, d, r.sourceId)
    && Fits(s, after[s], r) == Found(Some(s))
  }

  lemma OldHolds(store: Store, records: seq<Record>, p: Progress, mint: map<string, Subject>, after: Store, r: Record)
    requires Bindings(store, records, p, mint) && OldRows(store, records, p, mint, |records|, after)
    requires OneRowEach(records, p) && r in records && SmoothOne(store, p, r)
    requires r.localId !in mint && r.localId in p.bindings && r.localId in p.destinations
    ensures Holds(after, p, mint, r)
  {
    hide Bindings, Pure, MergeRow, Incoming, RowBy, WriteTo, TidyRow, OneRowEach, Matches, AllResolve;
    CreatesAreMinted(store, records, p, mint, r);
    OnOldRow(store, records, p, mint, r);
    var s := p.bindings[r.localId];
    var w := LastWriter(store, p, records, |records|, s);
    RowKeepsParent(store, p, mint, s, w);
    RowKeepsClasses(store, p, mint, s, w);
    if store[s].localId.None? {
      MergeAdopts(s, store[s], r, Incoming(p, r));
      WriteExists(store, p, r, s);
      AdoptedBySelf(store, records, p, mint, after, r, s);
      AdoptedGave(store, records, p, mint, after, s, r);
    }
  }

  lemma NewHolds(store: Store, records: seq<Record>, p: Progress, mint: map<string, Subject>, after: Store, r: Record)
    requires Bindings(store, records, p, mint) && NewRows(records, p, mint, |records|, after)
    requires r in records && r.localId in mint && r.localId in p.bindings && r.localId in p.destinations
    ensures Holds(after, p, mint, r)
  {
    hide Bindings, Pure, Incoming;
    assert records[..|records|] == records;
    CreatesAreMinted(store, records, p, mint, r);
    PlacedLocally(store, records, p, mint, r);
    DestinationKind(store, records, p, mint, r);
    assert after[mint[r.localId]].parent == Some(Destination(p, mint, r));
    if IsLocal(p.destinations[r.localId]) {
      MintNotLocal(store, records, p, mint, LocalPart(p.destinations[r.localId]));
    }
  }

  lemma SourceAlone(store: Store, d: Subject, s: Subject, r: Record)
    requires UniqueSources(store) && s in BySource(store, d, r.sourceId) && !IsLocal(d)
    ensures Matches(store, d, r) == {s} && |Matches(store, d, r)| == 1
  {
    forall t | t in BySource(store, d, r.sourceId)
      ensures t == s
    {
      assert SameSource(store[s], store[t]);
    }
    assert BySource(store, d, r.sourceId) == {s};
  }

  lemma FoundAgain(after: Store, p: Progress, mint: map<string, Subject>, r: Record)
    requires Tidy(after) && r.localId in p.bindings && r.localId in p.destinations && Holds(after, p, mint, r)
    ensures FindRow(after, Destination(p, mint, r), r) == Found(Some(Target(p, mint, r)))
  {
    var s, d := Target(p, mint, r), Destination(p, mint, r);
    SourceAlone(after, d, s, r);
    var matches := Matches(after, d, r);
    NeverReviewed(after, matches);
    ChoiceIsUnique(after, matches, s);
    hide Fits, Tidy, Matches, Target, Destination;
  }

  // ----- The binding loop goes through again -----

  ghost predicate Known(records: seq<Record>, p: Progress, mint: map<string, Subject>, q: Progress, key: (string, string)) {
    exists t :: t in records && t.localId in q.bindings && t.localId in p.destinations && key == (Pure(Destination(p, mint, t)), t.sourceId)
  }

  /** The bindings so far repeat the first import's. */
  ghost predicate Echo(records: seq<Record>, p: Progress, mint: map<string, Subject>, q: Progress) {
    && (forall id :: id in q.bindings ==> id in p.bindings && q.bindings[id] == SubstRef(mint, p.bindings[id]))
    && (forall key :: key in q.identities ==> Known(records, p, mint, q, key))
  }

  lemma DestinationAgain(store: Store, p: Progress, mint: map<string, Subject>, q: Progress, r: Record)
    requires Placed(store, p, r) && (IsLocal(r.parent) ==> LocalPart(r.parent) in q.bindings)
    requires forall id :: id in q.bindings ==> id in p.bindings && q.bindings[id] == SubstRef(mint, p.bindings[id])
    ensures ParentOf(q.bindings, r) == Destination(p, mint, r)
  {
    hide FindRow, Pure;
  }

  lemma FreshIdentity(store: Store, records: seq<Record>, p: Progress, mint: map<string, Subject>, q: Progress, r: Record)
    requires Bindings(store, records, p, mint) && Echo(records, p, mint, q)
    requires r in records && r.localId !in q.bindings && r.localId in p.destinations
    ensures (Pure(Destination(p, mint, r)), r.sourceId) !in q.identities
  {
    hide Bindings, Pure, Destination;
    var key := (Pure(Destination(p, mint, r)), r.sourceId);
    if key in q.identities {
      assert Known(records, p, mint, q, key);
      var t :| t in records && t.localId in q.bindings && t.localId in p.destinations && key == (Pure(Destination(p, mint, t)), t.sourceId);
      IdentitiesStayApart(store, records, p, mint, r, t);
    }
  }

  lemma EchoGrows(records: seq<Record>, p: Progress, mint: map<string, Subject>, q: Progress, next: Progress, r: Record)
    requires Echo(records, p, mint, q) && r in records && r.localId in p.bindings && r.localId in p.destinations
    requires next.bindings == q.bindings[r.localId := Target(p, mint, r)]
    requires next.identities == q.identities + {(Pure(Destination(p, mint, r)), r.sourceId)}
    ensures Echo(records, p, mint, next)
  {
    hide Pure, Destination, SubstRef;
    forall key | key in next.identities
      ensures Known(records, p, mint, next, key)
    {
      if key in q.identities {
        assert Known(records, p, mint, q, key);
        var t :| t in records && t.localId in q.bindings && t.localId in p.destinations && key == (Pure(Destination(p, mint, t)), t.sourceId);
        assert t.localId in next.bindings;
      }
    }
  }

  lemma VisitFinds(after: Store, q: Progress, r: Record, d: Subject, s: Subject)
    requires r.sourceId != "" && r.localId != "" && (IsLocal(r.parent) ==> LocalPart(r.parent) in q.bindings)
    requires d == ParentOf(q.bindings, r) && (Pure(d), r.sourceId) !in q.identities && FindRow(after, d, r) == Found(Some(s))
    ensures VisitRecord(after, q, r) == Bound(Progress(q.bindings[r.localId := s], q.destinations[r.localId := d], q.identities + {(Pure(d), r.sourceId)}, q.order + [r.localId]))
  {
    hide FindRow, Pure;
  }

  lemma PlacedNames(store: Store, p: Progress, r: Record)
    requires Placed(store, p, r)
    ensures r.sourceId != "" && r.localId != "" && r.localId in p.bindings && r.localId in p.destinations
  {
  }

  lemma VisitWaits(after: Store, q: Progress, r: Record)
    requires r.sourceId != "" && r.localId != "" && IsLocal(r.parent) && LocalPart(r.parent) !in q.bindings
    ensures VisitRecord(after, q, r) == Skipped
  {
  }

  lemma EchoedDestination(store: Store, records: seq<Record>, p: Progress, mint: map<string, Subject>, q: Progress, r: Record)
    requires Echo(records, p, mint, q) && Placed(store, p, r) && (IsLocal(r.parent) ==> LocalPart(r.parent) in q.bindings)
    ensures r.localId in p.destinations && ParentOf(q.bindings, r) == Destination(p, mint, r)
  {
    assert forall id :: id in q.bindings ==> id in p.bindings && q.bindings[id] == SubstRef(mint, p.bindings[id]);
    hide Echo, Placed;
    DestinationAgain(store, p, mint, q, r);
    PlacedNames(store, p, r);
  }

  /** What a visit that succeeds again adds. */
  ghost function VisitedAgain(p: Progress, mint: map<string, Subject>, q: Progress, r: Record): Progress
    requires r.localId in p.bindings && r.localId in p.destinations
  {
    Progress(q.bindings[r.localId := Target(p, mint, r)], q.destinations[r.localId := Destination(p, mint, r)],
             q.identities + {(Pure(Destination(p, mint, r)), r.sourceId)}, q.order + [r.localId])
  }

  lemma VisitAgain(store: Store, records: seq<Record>, p: Progress, mint: map<string, Subject>, after: Store, q: Progress, r: Record)
    requires Bindings(store, records, p, mint) && Tidy(after) && Echo(records, p, mint, q)
    requires r in records && r.localId !in q.bindings && r.localId in p.bindings && r.localId in p.destinations && Holds(after, p, mint, r)
    ensures var v := VisitRecord(after, q, r);
      v.Skipped? || (v == Bound(VisitedAgain(p, mint, q, r)) && Echo(records, p, mint, v.progress))
  {
    hide VisitRecord, Bindings, Tidy, FindRow, Holds, Pure, Destination, Target, Echo, Placed, IsLocal, LocalPart;
    BatchIsPlaced(store, records, p, mint, r);
    PlacedNames(store, p, r);
    if IsLocal(r.parent) && LocalPart(r.parent) !in q.bindings {
      VisitWaits(after, q, r);
    } else {
      FoundAgain(after, p, mint, r);
      FreshIdentity(store, records, p, mint, q, r);
      EchoedDestination(store, records, p, mint, q, r);
      VisitFinds(after, q, r, Destination(p, mint, r), Target(p, mint, r));
      EchoGrows(records, p, mint, q, VisitedAgain(p, mint, q, r), r);
    }
  }

  ghost predicate AllHold(records: seq<Record>, p: Progress, mint: map<string, Subject>, after: Store) {
    forall r :: r in records ==> r.localId in p.bindings && r.localId in p.destinations && Holds(after, p, mint, r)
  }

  lemma FirstWaiting(store: Store, records: seq<Record>, q: Progress, kept: seq<Record>, todo: seq<Record>)
    requires Tracks(store, records, q, kept + todo) && todo != []
    ensures todo[0] in records && todo[0].localId !in q.bindings
  {
    assert (kept + todo)[|kept|] == todo[0];
    assert StillUnbound(records, q, kept + todo);
    hide Tracks;
  }

  /** No pass of the second import is stopped. */
  lemma {:induction false} PassAgain(store: Store, records: seq<Record>, p: Progress, mint: map<string, Subject>, after: Store, q: Progress, kept: seq<Record>, todo: seq<Record>)
    requires Bindings(store, records, p, mint) && Tidy(after) && AllHold(records, p, mint, after)
    requires Echo(records, p, mint, q) && Tracks(after, records, q, kept + todo)
    ensures SweepOnce(after, q, todo).Swept? && Echo(records, p, mint, SweepOnce(after, q, todo).progress)
    decreases |todo|
  {
    hide Bindings, Tidy, Echo, Tracks, VisitRecord, Holds, VisitedAgain;
    if todo != [] {
      FirstWaiting(after, records, q, kept, todo);
      VisitAgain(store, records, p, mint, after, q, todo[0]);
      if VisitRecord(after, q, todo[0]).Skipped? {
        assert kept + todo == (kept + [todo[0]]) + todo[1..];
        PassAgain(store, records, p, mint, after, q, kept + [todo[0]], todo[1..]);
      } else {
        var next := VisitRecord(after, q, todo[0]).progress;
        BindingTracks(after, records, q, next, kept + todo, |kept|);
        assert (kept + todo)[..|kept|] + (kept + todo)[|kept| + 1..] == kept + todo[1..];
        PassAgain(store, records, p, mint, after, next, kept, todo[1..]);
      }
    }
  }

  lemma {:induction false} RoundsAgain(store: Store, records: seq<Record>, p: Progress, mint: map<string, Subject>, after: Store, q: Progress, pending: seq<Record>)
    requires Bindings(store, records, p, mint) && Tidy(after) && AllHold(records, p, mint, after)
    requires Echo(records, p, mint, q) && Tracks(after, records, q, pending)
    ensures Rounds(after, q, pending).Bound? || Rounds(after, q, pending) == Failed(CYCLE)
    decreases |pending|
  {
    hide Bindings, Tidy, Echo, Tracks, AllHold, SweepOnce;
    if pending != [] {
      assert [] + pending == pending;
      PassAgain(store, records, p, mint, after, q, [], pending);
      SweepTracks(after, records, q, [], pending);
      var s := SweepOnce(after, q, pending);
      assert [] + s.left == s.left;
      if |s.left| != |pending| {
        RoundsAgain(store, records, p, mint, after, s.progress, s.left);
      }
    }
  }

  // ----- And nothing is touched -----

  lemma NewUnchangedAgain(store: Store, records: seq<Record>, p: Progress, mint: map<string, Subject>, after: Store, r: Record)
    requires Bindings(store, records, p, mint) && NewRows(records, p, mint, |records|, after) && r in records && r.localId in mint
    ensures r.localId in p.bindings && Target(p, mint, r) == mint[r.localId] && mint[r.localId] in after
    ensures MergeRow(mint[r.localId], after[mint[r.localId]], r, SubstAll(mint, Incoming(p, r))) == Unchanged
  {
    hide Bindings, MergeRow, Incoming, NewRow, NewRowFor, SubstAll;
    assert records[..|records|] == records;
    PlacedLocally(store, records, p, mint, r);
    CreatesAreMinted(store, records, p, mint, r);
    CreatedAgain(p, mint, mint[r.localId], r);
  }

  lemma OldUnchangedAgain(store: Store, records: seq<Record>, p: Progress, mint: map<string, Subject>, after: Store, r: Record, s: Subject)
    requires Bindings(store, records, p, mint) && OldRows(store, records, p, mint, |records|, after)
    requires OneRowEach(records, p) && r in records && SmoothOne(store, p, r) && OnRow(store, p, r, s)
    ensures s in after && MergeRow(s, after[s], r, SubstAll(mint, Incoming(p, r))) == Unchanged
  {
    hide Bindings, MergeRow, Incoming, RowBy, WriteTo, OneRowEach, SmoothOne, SubstAll, OldRows, OnRow;
    OnRowIsOld(store, p, r, s);
    if WriteTo(store, p, r, s).Some? {
      AdoptedBySelf(store, records, p, mint, after, r, s);
      RowIsTidy(store, records, p, mint, s);
      WrittenAgain(store, p, mint, s, r);
    } else {
      StaysUnwritten(store, records, p, mint, after, r, s);
    }
  }

  lemma StaysUnwritten(store: Store, records: seq<Record>, p: Progress, mint: map<string, Subject>, after: Store, r: Record, s: Subject)
    requires Bindings(store, records, p, mint) && OldRows(store, records, p, mint, |records|, after)
    requires OneRowEach(records, p) && r in records && SmoothOne(store, p, r) && OnRow(store, p, r, s) && WriteTo(store, p, r, s).None?
    ensures s in after && MergeRow(s, after[s], r, SubstAll(mint, Incoming(p, r))) == Unchanged
  {
    hide Bindings, WriteTo, OnRow, MergeRow, Incoming, SubstAll, AllClean, AllResolve;
    assert records[..|records|] == records;
    OnRowMeans(store, p, r, s);
    OnRowIsOld(store, p, r, s);
    var w := LastWriter(store, p, records, |records|, s);
    if w.Some? {
      OnRowMeans(store, p, w.value, s);
    }
    assert after[s] == store[s];
    UnwrittenOutcome(store, p, r, s);
    RowIsTidy(store, records, p, mint, s);
    UntouchedValues(s, store[s], r, Incoming(p, r), mint);
  }

  lemma UntouchedValues(s: Subject, row: Row, r: Record, values: map<Property, Value>, mint: map<string, Subject>)
    requires TidyRow(row) && MergeRow(s, row, r, values) == Unchanged
    ensures MergeRow(s, row, r, SubstAll(mint, values)) == Unchanged
  {
    hide Judge, SubstAll, AllClean;
    assert Prior(row) == Prior(row) + values;
    RepeatedValuesStay(mint, Prior(row), values);
  }

  ghost predicate Settled(after: Store, q: Progress, r: Record) {
    && r.values.Keys * METADATA == {} && AllResolve(q.bindings, r.values)
    && r.localId in q.bindings && r.localId in q.destinations
    && var s := q.bindings[r.localId];
      !IsLocal(s) && s in after && !after[s].baseline.InvalidBaseline? && MergeRow(s, after[s], r, Incoming(q, r)) == Unchanged
  }

  lemma {:induction false} SettledBatch(after: Store, q: Progress, records: seq<Record>)
    requires forall r :: r in records ==> Settled(after, q, r)
    ensures ImportEach(after, q, records) == Ok(Report([], [], 0, 0, |records|))
    decreases |records|
  {
    hide MergeRow, AllResolve;
    if records != [] {
      var n := |records| - 1;
      SettledBatch(after, q, records[..n]);
      assert Settled(after, q, records[n]);
    }
  }

  lemma HoldsAgain(store: Store, records: seq<Record>, p: Progress, mint: map<string, Subject>, after: Store)
    requires Bindings(store, records, p, mint) && StoreAfter(store, records, p, mint, |records|, after)
    requires OneRowEach(records, p) && Smooth(store, p, records)
    ensures AllHold(records, p, mint, after)
  {
    hide Bindings, OldRows, NewRows, NoOtherRows, OneRowEach, SmoothOne, Holds, Placed;
    forall r | r in records
      ensures r.localId in p.bindings && r.localId in p.destinations && Holds(after, p, mint, r)
    {
      BatchIsPlaced(store, records, p, mint, r);
      PlacedNames(store, p, r);
      if r.localId in mint {
        NewHolds(store, records, p, mint, after, r);
      } else {
        OldHolds(store, records, p, mint, after, r);
      }
    }
  }

  lemma BindsAgain(store: Store, records: seq<Record>, p: Progress, mint: map<string, Subject>, after: Store)
    requires Bindings(store, records, p, mint) && Tidy(after) && AllHold(records, p, mint, after) && AllGrounded(records)
    ensures BindAll(after, records).Bound?
  {
    hide Bindings, Tidy, AllHold, Tracks, AllGrounded, Rounds, DistinctLocalIds;
    BatchIsDistinct(store, records, p, mint);
    NothingTracked(after, records);
    RoundsAgain(store, records, p, mint, after, NOTHING_BOUND, records);
    RoundsEnd(after, records, NOTHING_BOUND, records);
  }

  lemma SettledRecord(store: Store, records: seq<Record>, p: Progress, mint: map<string, Subject>, after: Store, q: Progress, r: Record)
    requires Bindings(store, records, p, mint) && StoreAfter(store, records, p, mint, |records|, after) && Tidy(after)
    requires OneRowEach(records, p) && SmoothOne(store, p, r) && r in records && Rebinds(p.bindings, q.bindings, mint)
    requires r.localId in q.bindings && r.localId in q.destinations && q.bindings[r.localId] == Target(p, mint, r)
    requires !IsLocal(q.bindings[r.localId])
    ensures Settled(after, q, r)
  {
    assert AllResolve(p.bindings, r.values);
    IncomingAgain(p, q, mint, r);
    hide Bindings, OldRows, NewRows, NoOtherRows, OneRowEach, SmoothOne, Tidy, Incoming, SubstAll, MergeRow, AllResolve, OnRow, Rebinds;
    CreatesAreMinted(store, records, p, mint, r);
    var s := q.bindings[r.localId];
    if r.localId in mint {
      NewUnchangedAgain(store, records, p, mint, after, r);
    } else {
      OnOldRow(store, records, p, mint, r);
      OldUnchangedAgain(store, records, p, mint, after, r, s);
    }
    TidyRowOf(after, s);
    assert !after[s].baseline.InvalidBaseline?;
    SmoothMeans(store, p, r);
  }

  lemma SmoothMeans(store: Store, p: Progress, r: Record)
    requires SmoothOne(store, p, r)
    ensures r.values.Keys * METADATA == {}
  {
  }

  lemma AllSettled(store: Store, records: seq<Record>, p: Progress, mint: map<string, Subject>, after: Store)
    requires Bindings(store, records, p, mint) && StoreAfter(store, records, p, mint, |records|, after) && Tidy(after)
    requires OneRowEach(records, p) && Smooth(store, p, records) && AllGrounded(records) && BindAll(after, records).Bound?
    ensures forall r :: r in records ==> Settled(after, BindAll(after, records).progress, r)
  {
    hide Bindings, StoreAfter, Tidy, OneRowEach, SmoothOne, BindAll, Placed, Owned, AllGrounded, Settled, Target;
    var q := BindAll(after, records).progress;
    BoundFacts(after, records);
    forall r | r in records
      ensures r.localId in p.bindings && r.localId in q.bindings && r.localId in q.destinations && q.bindings[r.localId] == Target(p, mint, r)
      ensures !IsLocal(q.bindings[r.localId])
    {
      var n := DepthOf(records, r);
      BoundAgainFrom(store, records, p, mint, after, q, r, n);
    }
    RebindsAll(store, records, p, mint, q);
    hide Rebinds;
    forall r | r in records
      ensures Settled(after, q, r)
    {
      SettledRecord(store, records, p, mint, after, q, r);
    }
  }

  /** After a clean import that gave every record a row of its own, every record
      is bound again, to a row that already says what it says. */
  lemma RepeatSettles(store: Store, records: seq<Record>, mint: map<string, Subject>, after: Store)
    requires Tidy(store) && ImportedInto(store, records, mint, after)
    requires Import(store, records).value.problems == [] && OneRowEach(records, BindAll(store, records).progress)
    ensures BindAll(after, records).Bound?
    ensures forall r :: r in records ==> Settled(after, BindAll(after, records).progress, r)
  {
    assert BindAll(store, records).Bound? && Import(store, records) == ImportEach(store, BindAll(store, records).progress, records);
    hide Tidy, ImportedInto, BindAll, Bindings, StoreAfter, AllGrounded, ImportEach, Smooth, OneRowEach, AllHold, Settled;
    var p := BindAll(store, records).progress;
    ImportKeepsTidy(store, records, mint, after);
    BindingsOf(store, records, mint, after);
    BoundIsAllGrounded(store, records);
    CleanIsSmooth(store, p, records);
    HoldsAgain(store, records, p, mint, after);
    BindsAgain(store, records, p, mint, after);
    AllSettled(store, records, p, mint, after);
  }

  /** After a clean import that gave every record a row of its own, importing the
      batch again finds every record and leaves every row untouched. */
  lemma RepeatLeavesUntouched(store: Store, records: seq<Record>, mint: map<string, Subject>, after: Store)
    requires Tidy(store) && ImportedInto(store, records, mint, after)
    requires Import(store, records).value.problems == [] && OneRowEach(records, BindAll(store, records).progress)
    ensures Import(after, records) == Ok(Report([], [], 0, 0, |records|))
  {
    hide Tidy, ImportedInto, BindAll, ImportEach, OneRowEach, Settled;
    RepeatSettles(store, records, mint, after);
    SettledBatch(after, BindAll(after, records).progress, records);
  }
}
