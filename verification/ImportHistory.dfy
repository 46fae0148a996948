/** No history of imports and local edits gives two rows one source record. */
module ImportHistory {
  import opened Wrappers
  import opened ImportRecords
  import opened ImportParents
  import opened ImportStore

  lemma BindingsOf(store: Store, records: seq<Record>, mint: map<string, Subject>, after: Store)
    requires Tidy(store) && ImportedInto(store, records, mint, after)
    ensures var p := BindAll(store, records).progress;
      && Bindings(store, records, p, mint)
      && ImportEach(store, p, records).Ok?
      && StoreAfter(store, records, p, mint, |records|, after)
  {
    hide Tidy, Minted, Rounds, ImportEach, ApplyAll, StoreAfter, Placed, Apart, OnceEach, ParentsFirst;
    BoundParentsFirst(store, records);
    var p := BindAll(store, records).progress;
    assert records[..|records|] == records;
    AppliedIntents(store, records, p, mint, |records|);
  }

  // ----- Clean values -----

  lemma {:induction false} CleanStays(mint: map<string, Subject>, v: Value)
    requires Clean(v, {})
    ensures Subst(mint, v) == v
  {
    match v
    case List(items) =>
      forall i | 0 <= i < |items|
        ensures Subst(mint, items[i]) == items[i]
      {
        CleanStays(mint, items[i]);
      }
    case Object(fields) =>
      forall k | k in fields
        ensures Subst(mint, fields[k]) == fields[k]
      {
        CleanStays(mint, fields[k]);
      }
    case _ =>
  }

  ghost predicate MintsAll(bindings: map<string, Subject>, mint: map<string, Subject>) {
    forall id :: id in bindings ==> !IsLocal(SubstRef(mint, bindings[id]))
  }

  /** Once resolved and minted, a source value has no `local:` reference left. */
  lemma {:induction false} ResolvedIsClean(bindings: map<string, Subject>, mint: map<string, Subject>, v: Value)
    requires MintsAll(bindings, mint) && Resolve(bindings, v).Ok?
    ensures Clean(Subst(mint, Resolve(bindings, v).value), {})
  {
    match v
    case List(items) =>
      forall i | 0 <= i < |items|
        ensures Clean(Subst(mint, Resolve(bindings, items[i]).value), {})
      {
        ResolvedIsClean(bindings, mint, items[i]);
      }
    case Object(fields) =>
      forall k | k in fields
        ensures Clean(Subst(mint, Resolve(bindings, fields[k]).value), {})
      {
        ResolvedIsClean(bindings, mint, fields[k]);
      }
    case _ =>
  }

  lemma TargetsAreMinted(store: Store, records: seq<Record>, p: Progress, mint: map<string, Subject>)
    requires Bindings(store, records, p, mint)
    ensures MintsAll(p.bindings, mint)
  {
    forall id | id in p.bindings
      ensures !IsLocal(SubstRef(mint, p.bindings[id]))
    {
      var r :| r in records && r.localId == id;
      hide Bindings, Pure;
      CreatesAreMinted(store, records, p, mint, r);
      PlacedLocally(store, records, p, mint, r);
    }
  }

  lemma PlacedLocally(store: Store, records: seq<Record>, p: Progress, mint: map<string, Subject>, r: Record)
    requires Bindings(store, records, p, mint) && r in records
    ensures r.localId in p.bindings
    ensures IsLocal(p.bindings[r.localId]) ==> p.bindings[r.localId] == LOCAL + r.localId && LocalPart(p.bindings[r.localId]) == r.localId
  {
    PlacedOn(store, p, r);
    LocalRef(r.localId);
    hide Bindings, Matches, Under, Fits;
  }

  lemma IncomingIsClean(p: Progress, mint: map<string, Subject>, r: Record)
    requires MintsAll(p.bindings, mint)
    ensures AllClean(SubstAll(mint, Incoming(p, r)), {})
  {
    forall q | q in Incoming(p, r)
      ensures Clean(Subst(mint, Incoming(p, r)[q]), {})
    {
      ResolvedIsClean(p.bindings, mint, r.values[q]);
    }
  }

  // ----- Rows stay tidy -----

  lemma SubstOverPrior(mint: map<string, Subject>, prior: map<Property, Value>, values: map<Property, Value>)
    requires AllClean(prior, {})
    ensures SubstAll(mint, prior + values) == prior + SubstAll(mint, values)
    ensures SubstAll(mint, prior) == prior
  {
    forall q | q in prior
      ensures Subst(mint, prior[q]) == prior[q]
    {
      CleanStays(mint, prior[q]);
    }
  }

  lemma RepeatedValuesStay(mint: map<string, Subject>, prior: map<Property, Value>, values: map<Property, Value>)
    requires AllClean(prior, {}) && prior == prior + values
    ensures SubstAll(mint, values) == values
  {
    forall q | q in values
      ensures Subst(mint, values[q]) == values[q]
    {
      assert (prior + values)[q] == values[q];
      CleanStays(mint, prior[q]);
    }
  }

  /** What a written row looks like, in terms of the row before and the source values. */
  lemma WrittenRow(mint: map<string, Subject>, s: Subject, row: Row, r: Record, values: map<Property, Value>)
    requires TidyRow(row) && MergeRow(s, row, r, values).Writes?
    ensures var i := MergeRow(s, row, r, values).intent;
      var after := SetRow(mint, row, i);
      && after.parent == row.parent && after.isA == row.isA && after.resolution == row.resolution
      && after.values == row.values + SubstAll(mint, i.put)
      && after.localId == (if row.localId.None? then Some(r.sourceId) else row.localId)
      && after.baseline.Saved? && after.baseline.values == Prior(row) + SubstAll(mint, values)
  {
    PutsExactly(s, row, r, values);
    hide MergeRow;
    SubstOverPrior(mint, Prior(row), values);
    if MergeRow(s, row, r, values).intent.baseline.None? {
      RepeatedValuesStay(mint, Prior(row), values);
    }
  }

  lemma CleanSubset(mint: map<string, Subject>, values: map<Property, Value>, put: map<Property, Value>)
    requires AllClean(SubstAll(mint, values), {}) && forall q :: q in put ==> q in values && put[q] == values[q]
    ensures AllClean(SubstAll(mint, put), {})
  {
    forall q | q in put
      ensures Clean(SubstAll(mint, put)[q], {})
    {
      assert SubstAll(mint, put)[q] == SubstAll(mint, values)[q];
    }
  }

  lemma WriteIsMerge(store: Store, p: Progress, s: Subject, r: Record)
    requires WriteTo(store, p, r, s).Some? && TidyRow(store[s])
    ensures MergeRow(s, store[s], r, Incoming(p, r)) == Writes(WriteTo(store, p, r, s).value)
  {
    hide MergeRow, Incoming;
  }

  lemma CleanTogether(a: map<Property, Value>, b: map<Property, Value>)
    requires AllClean(a, {}) && AllClean(b, {})
    ensures AllClean(a + b, {})
  {
    hide Clean;
  }

  lemma WrittenRowIsTidy(store: Store, p: Progress, mint: map<string, Subject>, s: Subject, r: Record)
    requires MintsAll(p.bindings, mint) && WriteTo(store, p, r, s).Some? && TidyRow(store[s])
    ensures TidyRow(RowBy(store, p, mint, s, Some(r)))
  {
    hide MergeRow, Incoming, MintsAll, WriteTo, SetRow, AllClean, SubstAll, IsLocal;
    var row, values := store[s], Incoming(p, r);
    var i := WriteTo(store, p, r, s).value;
    IncomingIsClean(p, mint, r);
    WriteIsMerge(store, p, s, r);
    WrittenRow(mint, s, row, r, values);
    PutsExactly(s, row, r, values);
    CleanSubset(mint, values, i.put);
    CleanTogether(row.values, SubstAll(mint, i.put));
    CleanTogether(Prior(row), SubstAll(mint, values));
  }

  // ----- Where a destination can point -----

  /** A record's parent is a row still to be created, or one no minted subject names. */
  lemma DestinationKind(store: Store, records: seq<Record>, p: Progress, mint: map<string, Subject>, r: Record)
    requires Bindings(store, records, p, mint) && r in records
    ensures r.localId in p.destinations
    ensures var d := p.destinations[r.localId];
      if IsLocal(d) then LocalPart(d) in mint && d == LOCAL + LocalPart(d)
      else forall x :: x in mint ==> Pure(mint[x]) != Pure(d)
  {
    assert Placed(store, p, r);
    var d := p.destinations[r.localId];
    if IsLocal(r.parent) {
      var up := LocalPart(r.parent);
      var t :| t in records && t.localId == up;
      assert d == p.bindings[up];
      hide Bindings, Placed, Pure;
      CreatesAreMinted(store, records, p, mint, t);
      PlacedLocally(store, records, p, mint, t);
      if !IsLocal(d) {
        MintsAvoidRow(store, records, p, mint, d);
      }
    } else {
      assert d == r.parent;
      hide Placed, Pure;
    }
  }

  lemma MintsAvoidRow(store: Store, records: seq<Record>, p: Progress, mint: map<string, Subject>, s: Subject)
    requires Bindings(store, records, p, mint) && s in store
    ensures forall x :: x in mint ==> Pure(mint[x]) != Pure(s)
    ensures forall x :: x in mint && store[s].parent.Some? ==> Pure(mint[x]) != Pure(store[s].parent.value)
  {
    assert Unmentioned(store, mint.Values);
    hide Bindings, Pure, AllClean;
    forall x | x in mint
      ensures Pure(mint[x]) != Pure(s) && (store[s].parent.Some? ==> Pure(mint[x]) != Pure(store[s].parent.value))
    {
      assert mint[x] in mint.Values;
    }
  }

  function Target(p: Progress, mint: map<string, Subject>, r: Record): Subject
    requires r.localId in p.bindings
  {
    SubstRef(mint, p.bindings[r.localId])
  }

  function Destination(p: Progress, mint: map<string, Subject>, r: Record): Subject
    requires r.localId in p.destinations
  {
    SubstRef(mint, p.destinations[r.localId])
  }

  lemma MintsApart(store: Store, records: seq<Record>, p: Progress, mint: map<string, Subject>, x: string, y: string)
    requires Bindings(store, records, p, mint) && x in mint && y in mint && Pure(mint[x]) == Pure(mint[y])
    ensures x == y
  {
    assert Minted(store, records, p, mint);
    hide Pure, Bindings, Unmentioned;
  }

  /** Minting keeps the batch's identities apart. */
  lemma IdentitiesStayApart(store: Store, records: seq<Record>, p: Progress, mint: map<string, Subject>, r: Record, t: Record)
    requires Bindings(store, records, p, mint) && r in records && t in records
    requires r.localId in p.destinations && t.localId in p.destinations
    requires Pure(Destination(p, mint, r)) == Pure(Destination(p, mint, t)) && r.sourceId == t.sourceId
    ensures r == t
  {
    assert Apart(records, p);
    hide Bindings, Pure, LocalPart, IsLocal;
    DestinationKind(store, records, p, mint, r);
    DestinationKind(store, records, p, mint, t);
    var d, e := p.destinations[r.localId], p.destinations[t.localId];
    if IsLocal(d) && IsLocal(e) {
      MintsApart(store, records, p, mint, LocalPart(d), LocalPart(e));
      assert d == e;
    } else {
      assert !IsLocal(d) && !IsLocal(e);
    }
    assert Pure(d) == Pure(e);
    assert Identity(p, r) == Identity(p, t);
  }

  // ----- Who gave a row its source id -----

  ghost predicate KeptId(store: Store, s: Subject) {
    s in store && store[s].localId.Some?
  }

  /** `r` gave `s` its source id in this import: it created or adopted the row. */
  ghost predicate Gave(store: Store, p: Progress, mint: map<string, Subject>, after: Store, s: Subject, r: Record) {
    && r.localId in p.bindings && r.localId in p.destinations
    && s == Target(p, mint, r) && !KeptId(store, s) && s in after
    && after[s].localId == Some(r.sourceId)
    && after[s].parent.Some? && Pure(after[s].parent.value) == Pure(Destination(p, mint, r))
  }

  lemma CreatedGave(store: Store, records: seq<Record>, p: Progress, mint: map<string, Subject>, after: Store, r: Record)
    requires Bindings(store, records, p, mint) && r in records && r.localId in mint
    requires mint[r.localId] in after && after[mint[r.localId]] == NewRow(mint, NewRowFor(p, r))
    ensures Gave(store, p, mint, after, mint[r.localId], r)
  {
    hide Bindings, Pure;
    CreatesAreMinted(store, records, p, mint, r);
    PlacedLocally(store, records, p, mint, r);
    DestinationKind(store, records, p, mint, r);
    assert Target(p, mint, r) == mint[r.localId];
  }

  lemma AdoptedGave(store: Store, records: seq<Record>, p: Progress, mint: map<string, Subject>, after: Store, s: Subject, r: Record)
    requires Bindings(store, records, p, mint) && r in records && WriteTo(store, p, r, s).Some? && store[s].localId.None?
    requires s in after && after[s] == RowBy(store, p, mint, s, Some(r))
    ensures Gave(store, p, mint, after, s, r)
  {
    assert TidyRow(store[s]);
    hide Bindings, Pure, TidyRow;
    BatchIsPlaced(store, records, p, mint, r);
    PlacedOn(store, p, r);
    WrittenRow(mint, s, store[s], r, Incoming(p, r));
    DestinationKind(store, records, p, mint, r);
  }

  lemma BatchIsPlaced(store: Store, records: seq<Record>, p: Progress, mint: map<string, Subject>, r: Record)
    requires Bindings(store, records, p, mint) && r in records
    ensures Tidy(store) && Placed(store, p, r)
  {
  }

  /** Every source id in the new store was there before or belongs to a record of the batch. */
  lemma KeptOrGiven(store: Store, records: seq<Record>, p: Progress, mint: map<string, Subject>, after: Store, s: Subject)
    requires Bindings(store, records, p, mint) && StoreAfter(store, records, p, mint, |records|, after)
    requires s in after && after[s].localId.Some?
    ensures if KeptId(store, s) then after[s].localId == store[s].localId && after[s].parent == store[s].parent
      else exists r :: r in records && Gave(store, p, mint, after, s, r)
  {
    hide Bindings, MergeRow, SetRow, Incoming, NewRow, NewRowFor, Gave;
    assert records[..|records|] == records;
    if s in store {
      var w := LastWriter(store, p, records, |records|, s);
      if w.Some? {
        RowIsTidy(store, records, p, mint, s);
        WriteIsMerge(store, p, s, w.value);
        WrittenRow(mint, s, store[s], w.value, Incoming(p, w.value));
        if store[s].localId.None? {
          AdoptedGave(store, records, p, mint, after, s, w.value);
        }
      }
    } else {
      var r :| r in records && r.localId in mint && s == mint[r.localId];
      CreatedGave(store, records, p, mint, after, r);
    }
  }

  lemma RowIsTidy(store: Store, records: seq<Record>, p: Progress, mint: map<string, Subject>, s: Subject)
    requires Bindings(store, records, p, mint) && s in store
    ensures TidyRow(store[s]) && !IsLocal(s)
  {
  }

  /** No row had the identity that this import gives away. */
  lemma NotGivenBefore(store: Store, records: seq<Record>, p: Progress, mint: map<string, Subject>, after: Store, s: Subject, r: Record, t: Subject)
    requires Bindings(store, records, p, mint) && r in records && Gave(store, p, mint, after, s, r)
    requires KeptId(store, t) && store[t].parent.Some? && Pure(store[t].parent.value) == Pure(Destination(p, mint, r))
    ensures store[t].localId != Some(r.sourceId)
  {
    hide Bindings, Pure, LocalPart, IsLocal;
    DestinationKind(store, records, p, mint, r);
    MintsAvoidRow(store, records, p, mint, t);
    var d := p.destinations[r.localId];
    assert !IsLocal(d);
    assert store[t].localId == Some(r.sourceId) ==> t in BySource(store, d, r.sourceId);
    hide Placed, FindRow, Fits, Tidy, ByLegacy;
    BatchIsPlaced(store, records, p, mint, r);
    PlacedOn(store, p, r);
  }

  lemma UniqueAfter(store: Store, records: seq<Record>, p: Progress, mint: map<string, Subject>, after: Store, s: Subject, t: Subject)
    requires Bindings(store, records, p, mint) && StoreAfter(store, records, p, mint, |records|, after)
    requires s in after && t in after && SameSource(after[s], after[t])
    ensures s == t
  {
    assert UniqueSources(store);
    hide Bindings, StoreAfter, Pure;
    KeptOrGiven(store, records, p, mint, after, s);
    KeptOrGiven(store, records, p, mint, after, t);
    if KeptId(store, s) && KeptId(store, t) {
    } else if KeptId(store, s) {
      var r :| r in records && Gave(store, p, mint, after, t, r);
      NotGivenBefore(store, records, p, mint, after, t, r, s);
    } else if KeptId(store, t) {
      var r :| r in records && Gave(store, p, mint, after, s, r);
      NotGivenBefore(store, records, p, mint, after, s, r, t);
    } else {
      var r :| r in records && Gave(store, p, mint, after, s, r);
      var u :| u in records && Gave(store, p, mint, after, t, u);
      IdentitiesStayApart(store, records, p, mint, r, u);
    }
  }

  lemma NewRowIsTidy(store: Store, records: seq<Record>, p: Progress, mint: map<string, Subject>, r: Record)
    requires Bindings(store, records, p, mint) && r in records && r.localId in mint && MintsAll(p.bindings, mint)
    ensures TidyRow(NewRow(mint, NewRowFor(p, r))) && !IsLocal(mint[r.localId])
  {
    hide Bindings, MintsAll, Incoming, AllClean;
    CreatesAreMinted(store, records, p, mint, r);
    DestinationKind(store, records, p, mint, r);
    IncomingIsClean(p, mint, r);
    var d := p.destinations[r.localId];
    if IsLocal(d) {
      MintNotLocal(store, records, p, mint, LocalPart(d));
    }
  }

  lemma MintNotLocal(store: Store, records: seq<Record>, p: Progress, mint: map<string, Subject>, x: string)
    requires Bindings(store, records, p, mint) && x in mint
    ensures !IsLocal(mint[x])
  {
    assert Minted(store, records, p, mint);
    hide Bindings, Unmentioned, Pure;
  }

  /** Applying an import to a tidy store leaves it tidy; in particular no two rows
      end up with one source id under one parent. */
  lemma ImportKeepsTidy(store: Store, records: seq<Record>, mint: map<string, Subject>, after: Store)
    requires Tidy(store) && ImportedInto(store, records, mint, after)
    ensures Tidy(after)
  {
    hide Tidy, BindAll, Minted, Import;
    BindingsOf(store, records, mint, after);
    var p := BindAll(store, records).progress;
    TidyAfter(store, records, p, mint, after);
  }

  lemma TidyAfter(store: Store, records: seq<Record>, p: Progress, mint: map<string, Subject>, after: Store)
    requires Bindings(store, records, p, mint) && StoreAfter(store, records, p, mint, |records|, after)
    ensures Tidy(after)
  {
    hide Bindings, TidyRow, NewRow, NewRowFor, RowBy, SameSource, IsLocal;
    TargetsAreMinted(store, records, p, mint);
    assert records[..|records|] == records;
    forall s | s in after
      ensures !IsLocal(s) && TidyRow(after[s])
    {
      if s in store {
        RowIsTidy(store, records, p, mint, s);
        var w := LastWriter(store, p, records, |records|, s);
        if w.Some? {
          WrittenRowIsTidy(store, p, mint, s, w.value);
        } else {
          UnwrittenRow(store, p, mint, s);
        }
      } else {
        var r :| r in records && r.localId in mint && s == mint[r.localId];
        NewRowIsTidy(store, records, p, mint, r);
      }
    }
    forall s, t | s in after && t in after && s != t
      ensures !SameSource(after[s], after[t])
    {
      if SameSource(after[s], after[t]) {
        UniqueAfter(store, records, p, mint, after, s, t);
      }
    }
  }

  lemma UnwrittenRow(store: Store, p: Progress, mint: map<string, Subject>, s: Subject)
    requires s in store
    ensures RowBy(store, p, mint, s, None) == store[s]
  {
  }

  // ----- Histories -----

  /** Local work between imports: values are edited, rows added or removed; import
      metadata is left alone. */
  ghost predicate Edited(a: Store, b: Store) {
    forall s :: s in b ==>
      && !IsLocal(s) && AllClean(b[s].values, {})
      && if s in a then b[s] == a[s].(values := b[s].values)
         else b[s].localId.None? && b[s].baseline.NoBaseline? && b[s].resolution.NoResolution? && (b[s].parent.Some? ==> !IsLocal(b[s].parent.value))
  }

  ghost predicate Evolves(a: Store, b: Store) {
    Edited(a, b) || exists records, mint :: ImportedInto(a, records, mint, b)
  }

  ghost predicate History(stores: seq<Store>) {
    |stores| > 0 && stores[0] == map[] && forall i :: 0 <= i < |stores| - 1 ==> Evolves(stores[i], stores[i + 1])
  }

  lemma EditKeepsTidy(a: Store, b: Store)
    requires Tidy(a) && Edited(a, b)
    ensures Tidy(b)
  {
    hide Clean, Pure, IsLocal;
    forall s | s in b
      ensures TidyRow(b[s])
    {
      if s in a {
        assert TidyRow(a[s]);
      }
    }
    forall s, t | s in b && t in b && s != t
      ensures !SameSource(b[s], b[t])
    {
      assert s in a && t in a ==> !SameSource(a[s], a[t]);
    }
  }

  /** Whatever is imported and edited, in any order, starting from nothing: the
      destination stays tidy and never holds two rows for one source id under one parent. */
  lemma {:induction false} HistoryStaysTidy(stores: seq<Store>, i: nat)
    requires History(stores) && i < |stores|
    ensures Tidy(stores[i]) && UniqueSources(stores[i])
    decreases i
  {
    hide ImportedInto, Edited, UniqueSources;
    if i == 0 {
      EmptyIsTidy();
    } else {
      HistoryStaysTidy(stores, i - 1);
      var a, b := stores[i - 1], stores[i];
      assert Evolves(stores[i - 1], stores[i - 1 + 1]);
      if Edited(a, b) {
        EditKeepsTidy(a, b);
      } else {
        var records, mint :| ImportedInto(a, records, mint, b);
        ImportKeepsTidy(a, records, mint, b);
      }
    }
  }

  lemma EmptyIsTidy()
    ensures Tidy(map[])
  {
  }
}
