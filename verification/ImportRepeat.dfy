/** Importing the same batch again proposes nothing. */
module ImportRepeat {
  import opened Wrappers
  import opened ImportRecords
  import opened ImportParents
  import opened ImportStore
  import opened ImportHistory

  // ----- Minting and equality of values -----

  /** Minting never makes a source value equal, or unequal, to a value that mentions
      neither local references nor minted subjects. */
  lemma {:induction false} MintKeepsEquality(mint: map<string, Subject>, v: Value, w: Value)
    requires Clean(w, mint.Values)
    ensures Subst(mint, v) == w <==> v == w
  {
    match v
    case Text(s) =>
      if IsLocal(s) && LocalPart(s) in mint {
        assert mint[LocalPart(s)] in mint.Values;
      }
    case List(items) =>
      if w.List? && |w.items| == |items| {
        forall i | 0 <= i < |items|
          ensures Subst(mint, items[i]) == w.items[i] <==> items[i] == w.items[i]
        {
          MintKeepsEquality(mint, items[i], w.items[i]);
        }
        SameItems(mint, items, w.items);
      }
    case Object(fields) =>
      if w.Object? && w.fields.Keys == fields.Keys {
        forall k | k in fields
          ensures Subst(mint, fields[k]) == w.fields[k] <==> fields[k] == w.fields[k]
        {
          MintKeepsEquality(mint, fields[k], w.fields[k]);
        }
        SameFields(mint, fields, w.fields);
      }
    case _ =>
  }

  lemma SameItems(mint: map<string, Subject>, items: seq<Value>, others: seq<Value>)
    requires |items| == |others|
    requires forall i :: 0 <= i < |items| ==> (Subst(mint, items[i]) == others[i] <==> items[i] == others[i])
    ensures Subst(mint, List(items)) == List(others) <==> items == others
  {
    var made := Subst(mint, List(items)).items;
    assert forall i :: 0 <= i < |items| ==> made[i] == Subst(mint, items[i]);
    if made == others {
      assert forall i :: 0 <= i < |items| ==> Subst(mint, items[i]) == others[i];
    }
  }

  lemma SameFields(mint: map<string, Subject>, fields: map<string, Value>, others: map<string, Value>)
    requires fields.Keys == others.Keys
    requires forall k :: k in fields ==> (Subst(mint, fields[k]) == others[k] <==> fields[k] == others[k])
    ensures Subst(mint, Object(fields)) == Object(others) <==> fields == others
  {
    var made := Subst(mint, Object(fields)).fields;
    assert made.Keys == fields.Keys;
    assert forall k :: k in fields ==> made[k] == Subst(mint, fields[k]);
    if made == others {
      assert forall k :: k in fields ==> Subst(mint, fields[k]) == others[k];
    }
  }

  ghost predicate Rebinds(first: map<string, Subject>, second: map<string, Subject>, mint: map<string, Subject>) {
    second.Keys == first.Keys && forall id :: id in first ==> second[id] == SubstRef(mint, first[id])
  }

  lemma ItemsResolveAgain(first: map<string, Subject>, second: map<string, Subject>, mint: map<string, Subject>, items: seq<Value>)
    requires Resolve(first, List(items)).Ok?
    requires forall i :: 0 <= i < |items| ==> Resolve(first, items[i]).Ok? && Resolve(second, items[i]) == Ok(Subst(mint, Resolve(first, items[i]).value))
    ensures Resolve(second, List(items)) == Ok(Subst(mint, Resolve(first, List(items)).value))
  {
    var again, minted := Resolve(second, List(items)).value.items, Subst(mint, Resolve(first, List(items)).value).items;
    assert |again| == |minted| == |items|;
    assert forall i :: 0 <= i < |items| ==> again[i] == Resolve(second, items[i]).value;
    assert forall i :: 0 <= i < |items| ==> minted[i] == Subst(mint, Resolve(first, items[i]).value);
    assert again == minted;
  }

  lemma FieldsResolve(bindings: map<string, Subject>, fields: map<string, Value>)
    requires forall k :: k in fields ==> Resolve(bindings, fields[k]).Ok?
    ensures Resolve(bindings, Object(fields)).Ok? && Resolve(bindings, Object(fields)).value.Object?
    ensures Resolve(bindings, Object(fields)).value.fields.Keys == fields.Keys
    ensures forall k :: k in fields ==> Resolve(bindings, Object(fields)).value.fields[k] == Resolve(bindings, fields[k]).value
  {
  }

  lemma FieldsSubst(mint: map<string, Subject>, fields: map<string, Value>)
    ensures Subst(mint, Object(fields)).Object? && Subst(mint, Object(fields)).fields.Keys == fields.Keys
    ensures forall k :: k in fields ==> Subst(mint, Object(fields)).fields[k] == Subst(mint, fields[k])
  {
  }

  lemma FieldsResolveAgain(first: map<string, Subject>, second: map<string, Subject>, mint: map<string, Subject>, fields: map<string, Value>)
    requires Resolve(first, Object(fields)).Ok?
    requires forall k :: k in fields ==> Resolve(first, fields[k]).Ok? && Resolve(second, fields[k]) == Ok(Subst(mint, Resolve(first, fields[k]).value))
    ensures Resolve(second, Object(fields)) == Ok(Subst(mint, Resolve(first, Object(fields)).value))
  {
    FieldsResolve(first, fields);
    hide Resolve, Subst;
    FieldsResolve(second, fields);
    var resolved := Resolve(first, Object(fields)).value.fields;
    FieldsSubst(mint, resolved);
    var again, minted := Resolve(second, Object(fields)).value.fields, Subst(mint, Object(resolved)).fields;
    assert again.Keys == minted.Keys;
    assert forall k :: k in fields ==> again[k] == minted[k];
    assert again == minted && Resolve(first, Object(fields)).value == Object(resolved);
  }

  /** Resolving against the minted bindings is resolving first and minting after. */
  lemma {:induction false} ResolvesAgain(first: map<string, Subject>, second: map<string, Subject>, mint: map<string, Subject>, v: Value)
    requires Rebinds(first, second, mint) && Resolve(first, v).Ok?
    ensures Resolve(second, v) == Ok(Subst(mint, Resolve(first, v).value))
  {
    match v
    case List(items) =>
      forall i | 0 <= i < |items|
        ensures Resolve(second, items[i]) == Ok(Subst(mint, Resolve(first, items[i]).value))
      {
        ResolvesAgain(first, second, mint, items[i]);
      }
      ItemsResolveAgain(first, second, mint, items);
    case Object(fields) =>
      forall k | k in fields
        ensures Resolve(second, fields[k]) == Ok(Subst(mint, Resolve(first, fields[k]).value))
      {
        ResolvesAgain(first, second, mint, fields[k]);
      }
      FieldsResolveAgain(first, second, mint, fields);
    case _ =>
  }

  lemma IncomingAgain(p: Progress, q: Progress, mint: map<string, Subject>, r: Record)
    requires Rebinds(p.bindings, q.bindings, mint) && AllResolve(p.bindings, r.values)
    ensures AllResolve(q.bindings, r.values) && Incoming(q, r) == SubstAll(mint, Incoming(p, r))
  {
    forall k | k in r.values
      ensures Resolve(q.bindings, r.values[k]) == Ok(Subst(mint, Resolve(p.bindings, r.values[k]).value))
    {
      ResolvesAgain(p.bindings, q.bindings, mint, r.values[k]);
    }
  }

  // ----- Merging again -----

  /** A row whose baseline already holds every incoming value is left alone. */
  lemma InSync(s: Subject, row: Row, r: Record, values: map<Property, Value>)
    requires row.baseline.Saved? && row.localId.Some? && row.baseline.values + values == row.baseline.values
    ensures MergeRow(s, row, r, values) == Unchanged
  {
    assert forall q :: q in values ==> (row.baseline.values + values)[q] == values[q];
    assert forall q :: q in values ==> Judge(row, r.append, q, values[q]) == Keep;
    hide Judge;
    assert Clashes(row, r.append, values, values.Keys) == map[];
    assert Pick(row, r.append, values, values.Keys) == map[];
  }

  lemma ClashesAgain(row: Row, append: bool, q: Property, v: Value, mint: map<string, Subject>)
    requires AllClean(row.values, mint.Values) && AllClean(Prior(row), mint.Values) && ClashesOn(row, append, q, v)
    ensures ClashesOn(row, append, q, Subst(mint, v))
  {
    hide Subst, Clean;
    if q in row.values {
      MintKeepsEquality(mint, v, row.values[q]);
    }
    if q in Prior(row) {
      MintKeepsEquality(mint, v, Prior(row)[q]);
    }
  }

  /** What was refused, or needed no writing, still is once references are minted. */
  lemma NothingToWriteAgain(s: Subject, row: Row, r: Record, values: map<Property, Value>, mint: map<string, Subject>)
    requires TidyRow(row) && AllClean(row.values, mint.Values) && AllClean(Prior(row), mint.Values)
    requires !MergeRow(s, row, r, values).Writes?
    ensures MergeRow(s, row, r, SubstAll(mint, values)) == Unchanged || MergeRow(s, row, r, SubstAll(mint, values)).Clashing?
  {
    hide Judge, ClashesOn, AllClean, TidyRow, Subst;
    assert !row.baseline.InvalidBaseline? && AllClean(Prior(row), {}) by {
      TidyMeans(row);
    }
    ClashesWhen(s, row, r, values);
    ClashesWhen(s, row, r, SubstAll(mint, values));
    if MergeRow(s, row, r, values).Clashing? {
      var q :| q in values && ClashesOn(row, r.append, q, values[q]);
      ClashesAgain(row, r.append, q, values[q], mint);
      assert q in SubstAll(mint, values);
    } else {
      assert Prior(row) == Prior(row) + values;
      RepeatedValuesStay(mint, Prior(row), values);
    }
  }

  lemma TidyMeans(row: Row)
    requires TidyRow(row)
    ensures !row.baseline.InvalidBaseline? && AllClean(Prior(row), {}) && AllClean(row.values, {})
  {
  }

  // ----- Binding again -----

  lemma RowWithoutBaseline(store: Store, p: Progress, mint: map<string, Subject>, s: Subject, w: Option<Record>)
    requires s in store && TidyRow(store[s]) && store[s].localId.None?
    ensures RowBy(store, p, mint, s, w).values == store[s].values
  {
    if w.Some? && WriteTo(store, p, w.value, s).Some? {
      var r := w.value;
      WriteIsMerge(store, p, s, r);
      WrittenRow(mint, s, store[s], r, Incoming(p, r));
      PutsExactly(s, store[s], r, Incoming(p, r));
      hide MergeRow, SetRow, WriteTo;
      assert SubstAll(mint, map[]) == map[];
      assert WriteTo(store, p, r, s).value.put == map[];
    }
  }

  lemma RowKeepsParent(store: Store, p: Progress, mint: map<string, Subject>, s: Subject, w: Option<Record>)
    requires s in store && TidyRow(store[s])
    ensures RowBy(store, p, mint, s, w).parent == store[s].parent
    ensures store[s].localId.Some? ==> RowBy(store, p, mint, s, w).localId == store[s].localId
  {
    if w.Some? && WriteTo(store, p, w.value, s).Some? {
      WriteIsMerge(store, p, s, w.value);
      WrittenRow(mint, s, store[s], w.value, Incoming(p, w.value));
    }
    hide WriteTo, SetRow;
  }

  /** The row an import bound a record to. */
  lemma OnOldRow(store: Store, records: seq<Record>, p: Progress, mint: map<string, Subject>, r: Record)
    requires Bindings(store, records, p, mint) && r in records && r.localId !in mint
    ensures r.localId in p.bindings && r.localId in p.destinations
    ensures var s := p.bindings[r.localId];
      var d := p.destinations[r.localId];
      && s in store && !IsLocal(s) && !IsLocal(d) && TidyRow(store[s])
      && Target(p, mint, r) == s && Destination(p, mint, r) == d
      && Matches(store, d, r) == {s} && Under(store[s], d) && Fits(s, store[s], r) == Found(Some(s))
  {
    hide Bindings, TidyRow, Matches, Under, Fits, Pure;
    CreatesAreMinted(store, records, p, mint, r);
    BatchIsPlaced(store, records, p, mint, r);
    PlacedOn(store, p, r);
    RowIsTidy(store, records, p, mint, p.bindings[r.localId]);
    hide Placed;
  }

  /** A record that adopted a row is the only one whose source id is under that parent. */
  lemma NobodyElse(store: Store, records: seq<Record>, p: Progress, mint: map<string, Subject>, after: Store, r: Record, t: Subject)
    requires Bindings(store, records, p, mint) && StoreAfter(store, records, p, mint, |records|, after)
    requires r in records && r.localId !in mint && BySource(store, p.destinations[r.localId], r.sourceId) == {}
    requires t in BySource(after, p.destinations[r.localId], r.sourceId)
    ensures t == p.bindings[r.localId]
  {
    hide Bindings, StoreAfter, Pure, Matches;
    OnOldRow(store, records, p, mint, r);
    KeptOrGiven(store, records, p, mint, after, t);
    var d := p.destinations[r.localId];
    assert KeptId(store, t) ==> t in BySource(store, d, r.sourceId);
    if !KeptId(store, t) {
      var u :| u in records && Gave(store, p, mint, after, t, u);
      IdentitiesStayApart(store, records, p, mint, r, u);
    }
  }

  lemma OldTargetMatches(store: Store, records: seq<Record>, p: Progress, mint: map<string, Subject>, after: Store, r: Record)
    requires Bindings(store, records, p, mint) && StoreAfter(store, records, p, mint, |records|, after)
    requires r in records && r.localId !in mint && r.localId in p.bindings && r.localId in p.destinations
    ensures Target(p, mint, r) in Matches(after, Destination(p, mint, r), r)
  {
    hide Bindings, Pure, RowBy, TidyRow;
    OnOldRow(store, records, p, mint, r);
    var s, d := p.bindings[r.localId], p.destinations[r.localId];
    var w := LastWriter(store, p, records, |records|, s);
    RowKeepsParent(store, p, mint, s, w);
    assert Under(after[s], d);
    if store[s].localId.Some? {
      assert s in BySource(after, d, r.sourceId);
    } else {
      assert BySource(store, d, r.sourceId) == {} by {
        assert BySource(store, d, r.sourceId) != {} ==> s in BySource(store, d, r.sourceId);
      }
      RowWithoutBaseline(store, p, mint, s, w);
      assert s in ByLegacy(after, d, r.legacy);
      if BySource(after, d, r.sourceId) != {} {
        var t :| t in BySource(after, d, r.sourceId);
        NobodyElse(store, records, p, mint, after, r, t);
      }
    }
  }

  lemma NewTargetMatches(store: Store, records: seq<Record>, p: Progress, mint: map<string, Subject>, after: Store, r: Record)
    requires Bindings(store, records, p, mint) && NewRows(records, p, mint, |records|, after)
    requires r in records && r.localId in mint && r.localId in p.bindings && r.localId in p.destinations
    ensures Target(p, mint, r) in Matches(after, Destination(p, mint, r), r)
  {
    hide Bindings, Pure;
    assert records[..|records|] == records;
    CreatesAreMinted(store, records, p, mint, r);
    PlacedLocally(store, records, p, mint, r);
    DestinationKind(store, records, p, mint, r);
    var m, d := mint[r.localId], Destination(p, mint, r);
    assert after[m].parent == Some(d);
    if IsLocal(p.destinations[r.localId]) {
      MintNotLocal(store, records, p, mint, LocalPart(p.destinations[r.localId]));
    }
    assert m in BySource(after, d, r.sourceId);
  }

  /** In a second import of the batch, a bound record is bound to its row from the first. */
  lemma BoundAgain(store: Store, records: seq<Record>, p: Progress, mint: map<string, Subject>, after: Store, q: Progress, r: Record)
    requires Bindings(store, records, p, mint) && StoreAfter(store, records, p, mint, |records|, after) && Tidy(after)
    requires r in records && r.localId in p.bindings && r.localId in p.destinations
    requires Placed(after, q, r) && q.destinations[r.localId] == Destination(p, mint, r)
    ensures q.bindings[r.localId] == Target(p, mint, r)
    ensures var s := q.bindings[r.localId]; s in after && !IsLocal(s) && Fits(s, after[s], r) == Found(Some(s))
  {
    hide Bindings, Tidy, Pure, Target, Destination, Matches, Fits, Under, OldRows, NoOtherRows, NewRows;
    if r.localId in mint {
      NewTargetMatches(store, records, p, mint, after, r);
    } else {
      OldTargetMatches(store, records, p, mint, after, r);
    }
    PlacedOn(after, q, r);
    hide Placed;
  }

  /** All the bindings of a second import are the minted bindings of the first. */
  lemma {:induction false} BoundAgainFrom(store: Store, records: seq<Record>, p: Progress, mint: map<string, Subject>, after: Store, q: Progress, r: Record, n: nat)
    requires Bindings(store, records, p, mint) && StoreAfter(store, records, p, mint, |records|, after) && Tidy(after)
    requires forall t :: t in records ==> Placed(after, q, t)
    requires r in records && GroundedIn(records, r, n)
    ensures r.localId in p.bindings && r.localId in p.destinations && r.localId in q.bindings && r.localId in q.destinations
    ensures q.bindings[r.localId] == Target(p, mint, r)
    ensures var s := q.bindings[r.localId]; s in after && !IsLocal(s) && Fits(s, after[s], r) == Found(Some(s))
    decreases n
  {
    hide Bindings, StoreAfter, Tidy, FindRow, Fits, Pure, LocalPart, IsLocal;
    BatchIsPlaced(store, records, p, mint, r);
    assert Placed(after, q, r);
    if IsLocal(r.parent) {
      var k :| 0 <= k < |records| && records[k].localId == LocalPart(r.parent) && GroundedIn(records, records[k], n - 1);
      BoundAgainFrom(store, records, p, mint, after, q, records[k], n - 1);
    }
    assert q.destinations[r.localId] == Destination(p, mint, r);
    hide Placed, Target, Destination;
    BoundAgain(store, records, p, mint, after, q, r);
  }

  // ----- The rows of the first import, seen by the second -----

  lemma {:induction false} EachResolves(store: Store, p: Progress, records: seq<Record>, k: nat)
    requires ImportEach(store, p, records).Ok? && k < |records|
    ensures AllResolve(p.bindings, records[k].values)
    decreases |records|
  {
    var n := |records| - 1;
    if k < n {
      EachResolves(store, p, records[..n], k);
      assert records[..n][k] == records[k];
    }
    hide AllResolve, MergeRow;
  }

  lemma PriorAbsorbs(prior: map<Property, Value>, values: map<Property, Value>)
    ensures prior + values + values == prior + values
  {
  }

  /** A created or written row has nothing left to take from its record. */
  lemma WrittenAgain(store: Store, p: Progress, mint: map<string, Subject>, s: Subject, r: Record)
    requires WriteTo(store, p, r, s).Some? && TidyRow(store[s])
    ensures MergeRow(s, RowBy(store, p, mint, s, Some(r)), r, SubstAll(mint, Incoming(p, r))) == Unchanged
  {
    hide MergeRow, SetRow, Incoming, SubstAll;
    WriteIsMerge(store, p, s, r);
    WrittenRow(mint, s, store[s], r, Incoming(p, r));
    PriorAbsorbs(Prior(store[s]), SubstAll(mint, Incoming(p, r)));
    hide WriteTo;
    InSync(s, RowBy(store, p, mint, s, Some(r)), r, SubstAll(mint, Incoming(p, r)));
  }

  lemma CreatedAgain(p: Progress, mint: map<string, Subject>, s: Subject, r: Record)
    ensures MergeRow(s, NewRow(mint, NewRowFor(p, r)), r, SubstAll(mint, Incoming(p, r))) == Unchanged
  {
    hide MergeRow, Incoming;
    var values := SubstAll(mint, Incoming(p, r));
    assert values + values == values;
    InSync(s, NewRow(mint, NewRowFor(p, r)), r, values);
  }

  /** What the second import does with a record. */
  ghost predicate Quiet(s: Subject, row: Row, r: Record, values: map<Property, Value>) {
    !row.baseline.InvalidBaseline? && !MergeRow(s, row, r, values).Writes?
  }

  lemma OldRowQuiet(store: Store, records: seq<Record>, p: Progress, mint: map<string, Subject>, after: Store, r: Record, s: Subject)
    requires Bindings(store, records, p, mint) && OldRows(store, records, p, mint, |records|, after)
    requires r in records && r.localId !in mint && r.localId in p.bindings && s == p.bindings[r.localId]
    requires s in after && TidyRow(after[s]) && Fits(s, after[s], r) == Found(Some(s))
    ensures Quiet(s, after[s], r, SubstAll(mint, Incoming(p, r)))
  {
    hide Bindings, MergeRow, SetRow, Incoming, SubstAll, AllClean;
    OnOldRow(store, records, p, mint, r);
    assert records[..|records|] == records;
    var w := LastWriter(store, p, records, |records|, s);
    if w.None? {
      StoreAvoidsMints(store, records, p, mint, s);
      UnwrittenOutcome(store, p, r, s);
      NothingToWriteAgain(s, store[s], r, Incoming(p, r), mint);
    } else if w.value == r {
      WrittenAgain(store, p, mint, s, r);
    } else {
      OnRowMeans(store, p, w.value, s);
      SharedRow(store, records, p, mint, r, w.value);
      WriteIsMerge(store, p, s, w.value);
      hide WriteTo;
      WrittenRow(mint, s, store[s], w.value, Incoming(p, w.value));
    }
  }

  lemma StoreAvoidsMints(store: Store, records: seq<Record>, p: Progress, mint: map<string, Subject>, s: Subject)
    requires Bindings(store, records, p, mint) && s in store
    ensures AllClean(store[s].values, mint.Values) && AllClean(Prior(store[s]), mint.Values)
  {
    assert Unmentioned(store, mint.Values);
    hide Bindings, Pure, AllClean;
  }

  lemma UnwrittenOutcome(store: Store, p: Progress, r: Record, s: Subject)
    requires OnRow(store, p, r, s) && WriteTo(store, p, r, s).None?
    ensures !MergeRow(s, store[s], r, Incoming(p, r)).Writes?
  {
    hide MergeRow, Incoming;
  }

  lemma QuietAgain(store: Store, records: seq<Record>, p: Progress, mint: map<string, Subject>, after: Store, r: Record, s: Subject)
    requires Bindings(store, records, p, mint) && StoreAfter(store, records, p, mint, |records|, after) && Tidy(after)
    requires r in records && r.localId in p.bindings && s == Target(p, mint, r)
    requires s in after && Fits(s, after[s], r) == Found(Some(s))
    ensures Quiet(s, after[s], r, SubstAll(mint, Incoming(p, r)))
  {
    hide Bindings, MergeRow, Incoming, SubstAll, Fits, OldRows, NoOtherRows, UniqueSources, Tidy, RowBy, WriteTo;
    assert records[..|records|] == records;
    if r.localId in mint {
      CreatesAreMinted(store, records, p, mint, r);
      PlacedLocally(store, records, p, mint, r);
      CreatedAgain(p, mint, s, r);
    } else {
      OnOldRow(store, records, p, mint, r);
      TidyRowOf(after, s);
      OldRowQuiet(store, records, p, mint, after, r, s);
    }
  }

  lemma TidyRowOf(store: Store, s: Subject)
    requires Tidy(store) && s in store
    ensures TidyRow(store[s])
  {
  }

  ghost predicate AllQuiet(store: Store, q: Progress, records: seq<Record>) {
    forall r :: r in records ==>
      && r.localId in q.bindings && !IsLocal(q.bindings[r.localId]) && q.bindings[r.localId] in store
      && Quiet(q.bindings[r.localId], store[q.bindings[r.localId]], r, Incoming(q, r))
  }

  lemma {:induction false} QuietBatch(store: Store, q: Progress, records: seq<Record>)
    requires AllQuiet(store, q, records)
    ensures ImportEach(store, q, records).Ok? ==> ImportEach(store, q, records).value.intents == []
    decreases |records|
  {
    hide MergeRow, AllResolve;
    if records != [] {
      QuietBatch(store, q, records[..|records| - 1]);
      assert records[|records| - 1] in records;
    }
  }

  lemma AllBoundAgain(store: Store, records: seq<Record>, p: Progress, mint: map<string, Subject>, after: Store, q: Progress)
    requires Bindings(store, records, p, mint) && StoreAfter(store, records, p, mint, |records|, after) && Tidy(after)
    requires AllGrounded(records) && ImportEach(store, p, records).Ok?
    requires forall t :: t in records ==> Placed(after, q, t)
    requires forall id :: id in q.bindings ==> Owned(records, id)
    ensures AllQuiet(after, q, records)
  {
    hide Bindings, StoreAfter, Tidy, FindRow, Fits, Pure, LocalPart, IsLocal, Placed, Target, Quiet, Grounded;
    forall r | r in records
      ensures r.localId in p.bindings && r.localId in q.bindings && q.bindings[r.localId] == Target(p, mint, r)
      ensures var s := q.bindings[r.localId]; s in after && !IsLocal(s) && Fits(s, after[s], r) == Found(Some(s))
    {
      var n := DepthOf(records, r);
      BoundAgainFrom(store, records, p, mint, after, q, r, n);
    }
    RebindsAll(store, records, p, mint, q);
    forall r | r in records
      ensures Quiet(q.bindings[r.localId], after[q.bindings[r.localId]], r, Incoming(q, r))
    {
      var k :| 0 <= k < |records| && records[k] == r;
      EachResolves(store, p, records, k);
      IncomingAgain(p, q, mint, r);
      QuietAgain(store, records, p, mint, after, r, q.bindings[r.localId]);
    }
  }

  lemma DepthOf(records: seq<Record>, r: Record) returns (n: nat)
    requires AllGrounded(records) && r in records
    ensures GroundedIn(records, r, n)
  {
    assert Grounded(records, r);
    n :| GroundedIn(records, r, n);
  }

  ghost predicate Owned(records: seq<Record>, id: string) {
    exists r :: r in records && r.localId == id
  }

  lemma BatchIds(store: Store, records: seq<Record>, p: Progress, mint: map<string, Subject>)
    requires Bindings(store, records, p, mint)
    ensures forall id :: id in p.bindings ==> Owned(records, id)
  {
    hide Minted, Tidy, Apart, Placed, DistinctLocalIds;
  }

  lemma RebindsAll(store: Store, records: seq<Record>, p: Progress, mint: map<string, Subject>, q: Progress)
    requires Bindings(store, records, p, mint)
    requires forall id :: id in q.bindings ==> Owned(records, id)
    requires forall r :: r in records ==> r.localId in p.bindings && r.localId in q.bindings && q.bindings[r.localId] == Target(p, mint, r)
    ensures Rebinds(p.bindings, q.bindings, mint)
  {
    hide Bindings, SubstRef;
    BatchIds(store, records, p, mint);
    forall id | Owned(records, id)
      ensures id in p.bindings && id in q.bindings && q.bindings[id] == SubstRef(mint, p.bindings[id])
    {
      var r :| r in records && r.localId == id;
    }
    hide Owned;
    assert q.bindings.Keys == p.bindings.Keys;
  }

  lemma BoundIsAllGrounded(store: Store, records: seq<Record>)
    requires BindAll(store, records).Bound?
    ensures AllGrounded(records)
  {
    NothingTracked(store, records);
    hide Tracks, AllGrounded, Rounds;
    RoundsEnd(store, records, NOTHING_BOUND, records);
  }

  lemma BoundFacts(store: Store, records: seq<Record>)
    requires BindAll(store, records).Bound?
    ensures var q := BindAll(store, records).progress;
      && (forall t :: t in records ==> Placed(store, q, t))
      && (forall id :: id in q.bindings ==> Owned(records, id))
  {
    hide BindAll, Placed, Apart, ParentsFirst, OnceEach;
    BoundParentsFirst(store, records);
  }

  lemma RepeatIsQuiet(store: Store, records: seq<Record>, mint: map<string, Subject>, after: Store)
    requires Tidy(store) && ImportedInto(store, records, mint, after) && BindAll(after, records).Bound?
    ensures AllQuiet(after, BindAll(after, records).progress, records)
  {
    assert BindAll(store, records).Bound?;
    hide Tidy, ImportedInto, BindAll, Bindings, StoreAfter, AllGrounded, AllQuiet, ImportEach, Placed, Owned;
    ImportKeepsTidy(store, records, mint, after);
    BindingsOf(store, records, mint, after);
    BoundIsAllGrounded(store, records);
    BoundFacts(after, records);
    AllBoundAgain(store, records, BindAll(store, records).progress, mint, after, BindAll(after, records).progress);
  }

  /** Importing a batch again, right after what it proposed was applied, proposes no
      intents: whatever the first import reported, from any tidy destination. */
  lemma RepeatProposesNothing(store: Store, records: seq<Record>, mint: map<string, Subject>, after: Store)
    requires Tidy(store) && ImportedInto(store, records, mint, after)
    ensures Import(after, records).Ok? ==> Import(after, records).value.intents == []
  {
    hide Tidy, ImportedInto, BindAll, AllQuiet, ImportEach;
    if BindAll(after, records).Bound? {
      RepeatIsQuiet(store, records, mint, after);
      QuietBatch(after, BindAll(after, records).progress, records);
    }
  }
}
