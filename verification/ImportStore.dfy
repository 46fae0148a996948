/** Applying an import's intents to the destination, over histories of imports and local edits. */
module ImportStore {
  import opened Wrappers
  import opened ImportRecords
  import opened ImportParents

  // ----- What one merge may write -----

  /** A property is written exactly when its row still holds the last imported
      value, the source has moved on, and the record is not append-only; the new
      baseline then remembers everything the source last said. */
  lemma PutsExactly(subject: Subject, current: Row, r: Record, values: map<Property, Value>)
    requires !current.baseline.InvalidBaseline? && MergeRow(subject, current, r, values).Writes?
    ensures var i := MergeRow(subject, current, r, values).intent;
      && i.SetIntent? && i.subject == subject
      && (forall p :: p in i.put <==>
            && p in values && current.baseline.Saved? && !r.append
            && Lookup(current.values, p) == Lookup(current.baseline.values, p) != Some(values[p]))
      && (forall p :: p in i.put ==> i.put[p] == values[p])
      && i.adopts == (if current.localId.None? then Some(r.sourceId) else None)
      && (if i.baseline.Some?
          then i.baseline.value == Saved(Prior(current) + values, Prior(current))
          else current.baseline.Saved? && current.baseline.values == Prior(current) + values)
  {
  }

  ghost predicate ClashesOn(current: Row, append: bool, p: Property, incoming: Value) {
    var here := Lookup(current.values, p);
    var before := Lookup(Prior(current), p);
    if !current.baseline.Saved? then here != Some(incoming)
    else if append then before != Some(incoming)
    else here != Some(incoming) && here != before && before != Some(incoming)
  }

  /** A record is left alone with a problem exactly when one of its values clashes:
      it differs from an unimported row, from an append-only baseline, or both
      sides moved apart since the baseline. */
  lemma ClashesWhen(subject: Subject, current: Row, r: Record, values: map<Property, Value>)
    requires !current.baseline.InvalidBaseline?
    ensures MergeRow(subject, current, r, values).Clashing? <==> exists p :: p in values && ClashesOn(current, r.append, p, values[p])
  {
    var clashes := Clashes(current, r.append, values, values.Keys);
    assert forall p :: p in clashes <==> p in values && ClashesOn(current, r.append, p, values[p]);
    if clashes != map[] {
      assert clashes.Keys != {};
      var p :| p in clashes;
    }
  }

  // ----- The host side: minting subjects and applying intents -----

  function SubstRef(mint: map<string, Subject>, s: string): string {
    if IsLocal(s) && LocalPart(s) in mint then mint[LocalPart(s)] else s
  }

  /** `local:` references to created rows become the subjects minted for them. */
  function Subst(mint: map<string, Subject>, v: Value): Value {
    match v
    case Text(s) => Text(SubstRef(mint, s))
    case List(items) => List(seq(|items|, i requires 0 <= i < |items| => Subst(mint, items[i])))
    case Object(fields) => Object(map k | k in fields :: Subst(mint, fields[k]))
    case _ => v
  }

  function SubstAll(mint: map<string, Subject>, values: map<Property, Value>): map<Property, Value> {
    map p | p in values :: Subst(mint, values[p])
  }

  function NewRow(mint: map<string, Subject>, i: Intent): Row
    requires i.CreateIntent?
  {
    Row(Some(SubstRef(mint, i.parent)), Some(i.isA), Some(i.sourceId), Saved(SubstAll(mint, i.values), map[]), NoResolution, SubstAll(mint, i.values))
  }

  function SetRow(mint: map<string, Subject>, row: Row, i: Intent): Row
    requires i.SetIntent?
  {
    row.(values := row.values + SubstAll(mint, i.put),
         localId := if i.adopts.Some? then i.adopts else row.localId,
         baseline := if i.baseline.Some? && i.baseline.value.Saved?
                     then Saved(SubstAll(mint, i.baseline.value.values), SubstAll(mint, i.baseline.value.previous))
                     else row.baseline)
  }

  ghost function ApplyOne(store: Store, i: Intent, mint: map<string, Subject>): Store {
    match i
    case CreateIntent(localId, _, _, _, _) => if localId in mint then store[mint[localId] := NewRow(mint, i)] else store
    case SetIntent(subject, _, _, _) => if subject in store then store[subject := SetRow(mint, store[subject], i)] else store
  }

  ghost function ApplyAll(store: Store, intents: seq<Intent>, mint: map<string, Subject>): Store {
    if intents == [] then store
    else ApplyOne(ApplyAll(store, intents[..|intents| - 1], mint), intents[|intents| - 1], mint)
  }

  // ----- Tidy stores -----

  /** No text inside `v` is a `local:` reference or one of `minted`. */
  predicate Clean(v: Value, minted: set<string>) {
    match v
    case Text(s) => !IsLocal(s) && s !in minted
    case List(items) => forall i :: 0 <= i < |items| ==> Clean(items[i], minted)
    case Object(fields) => forall k :: k in fields ==> Clean(fields[k], minted)
    case _ => true
  }

  ghost predicate AllClean(values: map<Property, Value>, minted: set<string>) {
    forall p :: p in values ==> Clean(values[p], minted)
  }

  ghost predicate TidyRow(row: Row) {
    && (row.parent.Some? ==> !IsLocal(row.parent.value))
    && !row.baseline.InvalidBaseline?
    && (row.baseline.Saved? ==> row.localId.Some?)
    && row.resolution.NoResolution?
    && AllClean(row.values, {}) && AllClean(Prior(row), {})
  }

  /** Both rows carry the same source id under the same parent. */
  ghost predicate SameSource(a: Row, b: Row) {
    a.parent.Some? && b.parent.Some? && Pure(a.parent.value) == Pure(b.parent.value) && a.localId.Some? && a.localId == b.localId
  }

  ghost predicate UniqueSources(store: Store) {
    forall s, t :: s in store && t in store && s != t ==> !SameSource(store[s], store[t])
  }

  ghost predicate Tidy(store: Store) {
    && (forall s :: s in store ==> !IsLocal(s) && TidyRow(store[s]))
    && UniqueSources(store)
  }

  ghost predicate Unmentioned(store: Store, minted: set<Subject>) {
    forall s :: s in store ==>
      && (forall m :: m in minted ==> Pure(m) != Pure(s) && (store[s].parent.Some? ==> Pure(m) != Pure(store[s].parent.value)))
      && AllClean(store[s].values, minted) && AllClean(Prior(store[s]), minted)
  }

  /** One new subject for every record that has no row, used nowhere yet. */
  ghost predicate Minted(store: Store, records: seq<Record>, p: Progress, mint: map<string, Subject>) {
    && (forall id :: id in mint <==> id in p.bindings && p.bindings[id] == LOCAL + id)
    && (forall x :: x in mint ==> !IsLocal(mint[x]))
    && (forall x, y :: x in mint && y in mint && x != y ==> Pure(mint[x]) != Pure(mint[y]))
    && (forall x, r :: x in mint && r in records ==> Pure(mint[x]) != Pure(r.parent))
    && Unmentioned(store, mint.Values)
  }

  /** `after` is `store` once everything `records` proposes has been applied. */
  ghost predicate ImportedInto(store: Store, records: seq<Record>, mint: map<string, Subject>, after: Store) {
    && BindAll(store, records).Bound?
    && Minted(store, records, BindAll(store, records).progress, mint)
    && Import(store, records).Ok?
    && after == ApplyAll(store, Import(store, records).value.intents, mint)
  }

  // ----- Single records -----

  ghost function Incoming(p: Progress, r: Record): map<Property, Value> {
    if AllResolve(p.bindings, r.values) then ResolvedValues(p.bindings, r.values) else map[]
  }

  /** Everything the binding loop settled about a batch. */
  ghost predicate Bindings(store: Store, records: seq<Record>, p: Progress, mint: map<string, Subject>) {
    && Tidy(store) && Minted(store, records, p, mint)
    && DistinctLocalIds(records) && Apart(records, p)
    && (forall r :: r in records ==> Placed(store, p, r))
    && (forall id :: id in p.bindings ==> exists r :: r in records && r.localId == id)
  }

  ghost predicate Created(p: Progress, r: Record)
    requires r.localId in p.bindings
  {
    p.bindings[r.localId] == LOCAL + r.localId
  }

  lemma LocalRef(id: string)
    ensures IsLocal(LOCAL + id) && LocalPart(LOCAL + id) == id
  {
  }

  lemma NeverReviewed(store: Store, matches: set<Subject>)
    requires Tidy(store) && matches <= store.Keys
    ensures NeedsReview(store, matches) <==> |matches| > 1
    ensures NeedsReview(store, matches) ==> !Decided(store, matches)
  {
  }

  /** A store without review markers matches one row, or none, or asks for a review. */
  lemma FoundAlone(store: Store, parent: string, r: Record)
    requires Tidy(store) && FindRow(store, parent, r).Found?
    ensures var matches := Matches(store, parent, r);
      match FindRow(store, parent, r).subject
      case None => matches == {}
      case Some(s) => matches == {s} && Fits(s, store[s], r) == Found(Some(s))
  {
    var matches := Matches(store, parent, r);
    if matches != {} {
      NeverReviewed(store, matches);
      var s := FindRow(store, parent, r).subject.value;
      forall t | t in matches
        ensures t == s
      {
        OneOf(matches, s, t);
      }
    }
  }

  /** A bound record either has no row and is new, or matched exactly one row. */
  lemma PlacedOn(store: Store, p: Progress, r: Record)
    requires Tidy(store) && Placed(store, p, r)
    ensures var s := p.bindings[r.localId];
      var parent := p.destinations[r.localId];
      if IsLocal(s) then Created(p, r) && Matches(store, parent, r) == {}
      else s in store && Matches(store, parent, r) == {s} && !IsLocal(parent) && Under(store[s], parent) && Fits(s, store[s], r) == Found(Some(s))
  {
    FoundAlone(store, p.destinations[r.localId], r);
    LocalRef(r.localId);
    hide FindRow, Fits, Pure;
  }

  // ----- The destination after an import -----

  ghost function NewRowFor(p: Progress, r: Record): (i: Intent)
    ensures i.CreateIntent? && i.localId == r.localId
  {
    CreateIntent(r.localId, if r.localId in p.destinations then p.destinations[r.localId] else "", r.isA, r.sourceId, Incoming(p, r))
  }

  ghost predicate OnRow(store: Store, p: Progress, r: Record, s: Subject) {
    r.localId in p.bindings && p.bindings[r.localId] == s && !IsLocal(s) && s in store && !store[s].baseline.InvalidBaseline?
  }

  /** What `r` writes to the row `s`, always judged against the row before the import. */
  ghost function WriteTo(store: Store, p: Progress, r: Record, s: Subject): (w: Option<Intent>)
    ensures w.Some? ==> OnRow(store, p, r, s) && w.value.SetIntent? && w.value.subject == s
  {
    if !OnRow(store, p, r, s) then None
    else match MergeRow(s, store[s], r, Incoming(p, r))
      case Writes(i) => Some(i)
      case _ => None
  }

  /** The last of the first `n` records that writes the row `s`. */
  ghost function LastWriter(store: Store, p: Progress, records: seq<Record>, n: nat, s: Subject): (w: Option<Record>)
    requires n <= |records|
    ensures w.Some? ==> w.value in records[..n] && WriteTo(store, p, w.value, s).Some?
    ensures w.None? ==> forall r :: r in records[..n] ==> WriteTo(store, p, r, s).None?
  {
    if n == 0 then None
    else
      var before := LastWriter(store, p, records, n - 1, s);
      assert records[..n] == records[..n - 1] + [records[n - 1]];
      if WriteTo(store, p, records[n - 1], s).Some? then Some(records[n - 1]) else before
  }

  ghost function RowBy(store: Store, p: Progress, mint: map<string, Subject>, s: Subject, writer: Option<Record>): Row
    requires s in store
  {
    if writer.Some? && WriteTo(store, p, writer.value, s).Some?
    then SetRow(mint, store[s], WriteTo(store, p, writer.value, s).value)
    else store[s]
  }

  ghost predicate OldRows(store: Store, records: seq<Record>, p: Progress, mint: map<string, Subject>, n: nat, after: Store)
    requires n <= |records|
  {
    forall s :: s in store ==> s in after && after[s] == RowBy(store, p, mint, s, LastWriter(store, p, records, n, s))
  }

  ghost predicate NewRows(records: seq<Record>, p: Progress, mint: map<string, Subject>, n: nat, after: Store)
    requires n <= |records|
  {
    forall r :: r in records[..n] && r.localId in mint ==> mint[r.localId] in after && after[mint[r.localId]] == NewRow(mint, NewRowFor(p, r))
  }

  ghost predicate NoOtherRows(store: Store, records: seq<Record>, mint: map<string, Subject>, n: nat, after: Store)
    requires n <= |records|
  {
    forall s :: s in after && s !in store ==> exists r :: r in records[..n] && r.localId in mint && s == mint[r.localId]
  }

  /** The whole destination after the first `n` records: each old row as its last
      writer leaves it, and one new row for each record without one. */
  ghost predicate StoreAfter(store: Store, records: seq<Record>, p: Progress, mint: map<string, Subject>, n: nat, after: Store)
    requires n <= |records|
  {
    OldRows(store, records, p, mint, n, after) && NewRows(records, p, mint, n, after) && NoOtherRows(store, records, mint, n, after)
  }

  /** Two records bound to one row: the row has no source id yet. */
  lemma SharedRow(store: Store, records: seq<Record>, p: Progress, mint: map<string, Subject>, r: Record, t: Record)
    requires Bindings(store, records, p, mint) && r in records && t in records
    requires p.bindings[r.localId] == p.bindings[t.localId] && r != t && !IsLocal(p.bindings[r.localId])
    ensures var s := p.bindings[r.localId]; s in store && store[s].localId.None? && r.sourceId != t.sourceId
  {
    PlacedOn(store, p, r);
    PlacedOn(store, p, t);
    assert Identity(p, r) != Identity(p, t);
    hide Pure, FindRow, Matches;
  }

  /** Writing a row without a source id leaves nothing of an earlier such write. */
  lemma SecondWriteWins(mint: map<string, Subject>, row: Row, s: Subject, r: Record, t: Record, rValues: map<Property, Value>, tValues: map<Property, Value>)
    requires TidyRow(row) && row.localId.None?
    requires MergeRow(s, row, r, rValues).Writes? && MergeRow(s, row, t, tValues).Writes?
    ensures SetRow(mint, SetRow(mint, row, MergeRow(s, row, r, rValues).intent), MergeRow(s, row, t, tValues).intent)
      == SetRow(mint, row, MergeRow(s, row, t, tValues).intent)
  {
    PutsExactly(s, row, r, rValues);
    PutsExactly(s, row, t, tValues);
    var i, j := MergeRow(s, row, r, rValues).intent, MergeRow(s, row, t, tValues).intent;
    hide MergeRow;
    assert i.put == map[] && j.put == map[];
    assert row.values + SubstAll(mint, map[]) == row.values;
  }

  lemma EarlierWriteGone(store: Store, records: seq<Record>, p: Progress, mint: map<string, Subject>, n: nat, s: Subject)
    requires Bindings(store, records, p, mint) && n < |records| && s in store
    requires WriteTo(store, p, records[n], s).Some?
    ensures SetRow(mint, RowBy(store, p, mint, s, LastWriter(store, p, records, n, s)), WriteTo(store, p, records[n], s).value)
      == RowBy(store, p, mint, s, Some(records[n]))
  {
    var w := LastWriter(store, p, records, n, s);
    if w.Some? {
      var r, t := w.value, records[n];
      assert r != t by {
        var k :| 0 <= k < n && records[k] == r;
        assert DistinctLocalIds(records);
      }
      SharedRow(store, records, p, mint, r, t);
      assert TidyRow(store[s]);
      SecondWriteWins(mint, store[s], s, r, t, Incoming(p, r), Incoming(p, t));
    }
  }

  lemma MintIsNew(store: Store, mint: map<string, Subject>, x: string)
    requires Unmentioned(store, mint.Values) && x in mint
    ensures mint[x] !in store
  {
    assert mint[x] in mint.Values;
    hide Pure, AllClean;
  }

  lemma CreatesAreMinted(store: Store, records: seq<Record>, p: Progress, mint: map<string, Subject>, r: Record)
    requires Bindings(store, records, p, mint) && r in records
    ensures r.localId in p.bindings
    ensures r.localId in mint <==> IsLocal(p.bindings[r.localId])
    ensures r.localId in mint ==> mint[r.localId] !in store && !IsLocal(mint[r.localId])
    ensures r.localId !in mint ==> OnRow(store, p, r, p.bindings[r.localId])
  {
    PlacedOn(store, p, r);
    LocalRef(r.localId);
    assert r.localId in p.bindings;
    assert r.localId in mint <==> p.bindings[r.localId] == LOCAL + r.localId;
    if r.localId in mint {
      MintIsNew(store, mint, r.localId);
    } else {
      assert TidyRow(store[p.bindings[r.localId]]);
    }
    hide Bindings, Placed, Pure, Matches, Fits, Under, UniqueSources, Unmentioned, LocalPart, AllClean, FindRow;
  }

  /** The intent `r` adds to the batch's intents. */
  ghost function Proposed(store: Store, p: Progress, r: Record): Option<Intent> {
    if r.localId !in p.bindings then None
    else if IsLocal(p.bindings[r.localId]) then Some(NewRowFor(p, r))
    else WriteTo(store, p, r, p.bindings[r.localId])
  }

  ghost function Applied(acc: Store, i: Option<Intent>, mint: map<string, Subject>): Store {
    if i.Some? then ApplyOne(acc, i.value, mint) else acc
  }

  lemma OldRowOneMore(store: Store, records: seq<Record>, p: Progress, mint: map<string, Subject>, n: nat, acc: Store, s: Subject)
    requires Bindings(store, records, p, mint) && n < |records| && s in store && s in acc
    requires acc[s] == RowBy(store, p, mint, s, LastWriter(store, p, records, n, s))
    ensures var after := Applied(acc, Proposed(store, p, records[n]), mint);
      s in after && after[s] == RowBy(store, p, mint, s, LastWriter(store, p, records, n + 1, s))
  {
    hide Bindings, OnRow, SetRow, NewRow, NewRowFor, MergeRow, Incoming, WriteTo, RowBy, LastWriter;
    var r := records[n];
    CreatesAreMinted(store, records, p, mint, r);
    if WriteTo(store, p, r, s).Some? {
      EarlierWriteGone(store, records, p, mint, n, s);
      OnRowMeans(store, p, r, s);
    }
    LastWriterStep(store, p, records, n, s);
  }

  lemma OnRowMeans(store: Store, p: Progress, r: Record, s: Subject)
    ensures OnRow(store, p, r, s) ==> r.localId in p.bindings && p.bindings[r.localId] == s && !IsLocal(s)
    ensures WriteTo(store, p, r, s).Some? ==> OnRow(store, p, r, s)
  {
  }

  lemma LastWriterStep(store: Store, p: Progress, records: seq<Record>, n: nat, s: Subject)
    requires n < |records|
    ensures LastWriter(store, p, records, n + 1, s) ==
      if WriteTo(store, p, records[n], s).Some? then Some(records[n]) else LastWriter(store, p, records, n, s)
  {
  }

  lemma OldRowsOneMore(store: Store, records: seq<Record>, p: Progress, mint: map<string, Subject>, n: nat, acc: Store)
    requires Bindings(store, records, p, mint) && n < |records| && OldRows(store, records, p, mint, n, acc)
    ensures OldRows(store, records, p, mint, n + 1, Applied(acc, Proposed(store, p, records[n]), mint))
  {
    hide Bindings, Applied, Proposed, RowBy, LastWriter;
    forall s | s in store
      ensures var after := Applied(acc, Proposed(store, p, records[n]), mint);
        s in after && after[s] == RowBy(store, p, mint, s, LastWriter(store, p, records, n + 1, s))
    {
      OldRowOneMore(store, records, p, mint, n, acc, s);
    }
  }

  lemma OthersDiffer(records: seq<Record>, n: nat, t: Record)
    requires DistinctLocalIds(records) && n < |records| && t in records[..n]
    ensures t in records && t.localId != records[n].localId
  {
  }

  /** The subjects and rows that `r` touches. */
  lemma ProposalTouches(store: Store, records: seq<Record>, p: Progress, mint: map<string, Subject>, r: Record, acc: Store)
    requires Bindings(store, records, p, mint) && r in records
    ensures var after := Applied(acc, Proposed(store, p, r), mint);
      && (r.localId in mint ==> after == acc[mint[r.localId] := NewRow(mint, NewRowFor(p, r))])
      && (r.localId !in mint ==> after.Keys == acc.Keys && forall s :: s in acc && s !in store ==> after[s] == acc[s])
  {
    hide Bindings, OnRow, SetRow, NewRow, MergeRow, Incoming, WriteTo, NewRowFor;
    CreatesAreMinted(store, records, p, mint, r);
    OnRowMeans(store, p, r, p.bindings[r.localId]);
    OnRowIsOld(store, p, r, p.bindings[r.localId]);
  }

  lemma OnRowIsOld(store: Store, p: Progress, r: Record, s: Subject)
    ensures OnRow(store, p, r, s) ==> s in store
  {
  }

  lemma MintsDiffer(store: Store, records: seq<Record>, p: Progress, mint: map<string, Subject>, x: string, y: string)
    requires Bindings(store, records, p, mint) && x in mint && y in mint && x != y
    ensures mint[x] != mint[y]
  {
    hide Pure, Placed, Tidy, Apart, Unmentioned, DistinctLocalIds;
    assert Pure(mint[x]) != Pure(mint[y]);
  }

  lemma BatchIsDistinct(store: Store, records: seq<Record>, p: Progress, mint: map<string, Subject>)
    requires Bindings(store, records, p, mint)
    ensures DistinctLocalIds(records)
  {
  }

  lemma NewRowsOneMore(store: Store, records: seq<Record>, p: Progress, mint: map<string, Subject>, n: nat, acc: Store)
    requires Bindings(store, records, p, mint) && n < |records| && NewRows(records, p, mint, n, acc)
    ensures NewRows(records, p, mint, n + 1, Applied(acc, Proposed(store, p, records[n]), mint))
  {
    hide Bindings, Applied, Proposed, NewRow, NewRowFor, DistinctLocalIds;
    var r := records[n];
    var after := Applied(acc, Proposed(store, p, r), mint);
    ProposalTouches(store, records, p, mint, r, acc);
    BatchIsDistinct(store, records, p, mint);
    assert records[..n + 1] == records[..n] + [r];
    forall t | t in records[..n] && t.localId in mint
      ensures mint[t.localId] in after && after[mint[t.localId]] == NewRow(mint, NewRowFor(p, t))
    {
      OthersDiffer(records, n, t);
      CreatesAreMinted(store, records, p, mint, t);
      if r.localId in mint {
        MintsDiffer(store, records, p, mint, t.localId, r.localId);
      }
    }
  }

  lemma NoOtherRowsOneMore(store: Store, records: seq<Record>, p: Progress, mint: map<string, Subject>, n: nat, acc: Store)
    requires Bindings(store, records, p, mint) && n < |records| && NoOtherRows(store, records, mint, n, acc)
    ensures NoOtherRows(store, records, mint, n + 1, Applied(acc, Proposed(store, p, records[n]), mint))
  {
    hide Bindings, Applied, Proposed, NewRow, NewRowFor;
    var r := records[n];
    ProposalTouches(store, records, p, mint, r, acc);
    assert records[..n + 1] == records[..n] + [r];
  }

  lemma {:induction false} AppliedIntents(store: Store, records: seq<Record>, p: Progress, mint: map<string, Subject>, n: nat)
    requires Bindings(store, records, p, mint) && n <= |records| && ImportEach(store, p, records[..n]).Ok?
    ensures StoreAfter(store, records, p, mint, n, ApplyAll(store, ImportEach(store, p, records[..n]).value.intents, mint))
    decreases n
  {
    hide Bindings, Applied, Proposed, ImportOne;
    if n == 0 {
      assert records[..0] == [];
    } else {
      assert records[..n][..n - 1] == records[..n - 1];
      AppliedIntents(store, records, p, mint, n - 1);
      var before := ImportEach(store, p, records[..n - 1]).value;
      var acc := ApplyAll(store, before.intents, mint);
      ProposedIntent(store, p, before, records[n - 1]);
      AppliedOneMore(store, before.intents, Proposed(store, p, records[n - 1]), mint);
      hide ApplyAll, OldRows, NewRows, NoOtherRows, LastWriter;
      OldRowsOneMore(store, records, p, mint, n - 1, acc);
      NewRowsOneMore(store, records, p, mint, n - 1, acc);
      NoOtherRowsOneMore(store, records, p, mint, n - 1, acc);
    }
  }

  function Listed<T>(o: Option<T>): seq<T> {
    if o.Some? then [o.value] else []
  }

  lemma ProposedIntent(store: Store, p: Progress, report: Report, r: Record)
    requires ImportOne(store, p, report, r).Ok?
    ensures ImportOne(store, p, report, r).value.intents == report.intents + Listed(Proposed(store, p, r))
  {
    hide MergeRow;
  }

  lemma AppliedOneMore(store: Store, intents: seq<Intent>, i: Option<Intent>, mint: map<string, Subject>)
    ensures ApplyAll(store, intents + Listed(i), mint) == Applied(ApplyAll(store, intents, mint), i, mint)
  {
    if i.Some? {
      assert (intents + [i.value])[..|intents|] == intents;
    } else {
      assert intents + [] == intents;
    }
  }
}
