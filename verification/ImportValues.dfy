/** What an import stores, told from the records alone: every value as the source
    gave it, with its references to other records replaced by those records' rows. */
module ImportValues {
  import opened Wrappers
  import opened ImportRecords
  import opened ImportParents
  import opened ImportStore
  import opened ImportHistory
  import opened ImportRepeat
  import opened ImportEdits

  // ----- Values -----

  /** `w` is `v`, but for every text `local:x`, which has become the text `names` holds for x. */
  predicate Mirrors(names: map<string, Subject>, v: Value, w: Value)
    decreases v
  {
    match v
    case Text(s) => if "local:" <= s then s[6..] in names && w == Text(names[s[6..]]) else w == v
    case List(items) => w.List? && |w.items| == |items| && forall i :: 0 <= i < |items| ==> Mirrors(names, items[i], w.items[i])
    case Object(fields) => w.Object? && w.fields.Keys == fields.Keys && forall k :: k in fields ==> Mirrors(names, fields[k], w.fields[k])
    case _ => w == v
  }

  lemma {:induction false} ResolvedMirrors(names: map<string, Subject>, v: Value)
    ensures Resolve(names, v).Ok? ==> Mirrors(names, v, Resolve(names, v).value)
    decreases v
  {
    match v
    case List(items) =>
      forall i | 0 <= i < |items| && Resolve(names, items[i]).Ok?
        ensures Mirrors(names, items[i], Resolve(names, items[i]).value)
      {
        ResolvedMirrors(names, items[i]);
      }
    case Object(fields) =>
      forall k | k in fields && Resolve(names, fields[k]).Ok?
        ensures Mirrors(names, fields[k], Resolve(names, fields[k]).value)
      {
        ResolvedMirrors(names, fields[k]);
      }
    case _ =>
  }

  lemma {:induction false} MirrorsResolve(names: map<string, Subject>, v: Value, w: Value)
    requires Mirrors(names, v, w)
    ensures Resolve(names, v) == Ok(w)
    decreases v
  {
    match v
    case List(items) =>
      forall i | 0 <= i < |items|
        ensures Resolve(names, items[i]) == Ok(w.items[i])
      {
        MirrorsResolve(names, items[i], w.items[i]);
      }
      assert Resolve(names, v).value.items == w.items;
    case Object(fields) =>
      forall k | k in fields
        ensures Resolve(names, fields[k]) == Ok(w.fields[k])
      {
        MirrorsResolve(names, fields[k], w.fields[k]);
      }
      assert Resolve(names, v).value.fields == w.fields;
    case _ =>
  }

  /** A value resolves to exactly the one that mirrors it; without references, to itself. */
  lemma ResolvesToMirror(names: map<string, Subject>, v: Value, w: Value)
    ensures Resolve(names, v) == Ok(w) <==> Mirrors(names, v, w)
    ensures Clean(v, {}) ==> Resolve(names, v) == Ok(v)
  {
    hide Mirrors, Resolve, Clean;
    ResolvedMirrors(names, v);
    if Mirrors(names, v, w) {
      MirrorsResolve(names, v, w);
    }
    if Clean(v, {}) {
      CleanMirrorsItself(names, v);
      MirrorsResolve(names, v, v);
    }
  }

  lemma {:induction false} CleanMirrorsItself(names: map<string, Subject>, v: Value)
    requires Clean(v, {})
    ensures Mirrors(names, v, v)
    decreases v
  {
    match v
    case List(items) =>
      forall i | 0 <= i < |items|
        ensures Mirrors(names, items[i], items[i])
      {
        CleanMirrorsItself(names, items[i]);
      }
    case Object(fields) =>
      forall k | k in fields
        ensures Mirrors(names, fields[k], fields[k])
      {
        CleanMirrorsItself(names, fields[k]);
      }
    case _ =>
  }

  // ----- Identifiers -----

  predicate NoFragment(s: string) {
    forall i :: 0 <= i < |s| ==> s[i] != '?' && s[i] != '#'
  }

  predicate IsFragment(s: string) {
    s == "" || s[0] == '?' || s[0] == '#'
  }

  /** Either scheme may spell an Atomic identifier, with a query or fragment after it;
      `atomic://` is an older kind of link. */
  ghost predicate Spells(raw: string, core: string, tail: string) {
    && NoFragment(core) && IsFragment(tail)
    && (raw == "did:ad:" + core + tail || (raw == "atomic:" + core + tail && !("//" <= core + tail)))
  }

  lemma {:induction false} CutAtFragment(core: string, tail: string)
    requires NoFragment(core) && IsFragment(tail)
    ensures UpToFragment(core + tail) == core
    decreases |core|
  {
    if core != "" {
      assert (core + tail)[1..] == core[1..] + tail;
      CutAtFragment(core[1..], tail);
      assert core == [core[0]] + core[1..];
    } else {
      assert core + tail == tail;
    }
  }

  lemma {:induction false} FragmentSplits(s: string) returns (tail: string)
    ensures NoFragment(UpToFragment(s)) && IsFragment(tail) && s == UpToFragment(s) + tail
    decreases |s|
  {
    if s == "" || s[0] == '?' || s[0] == '#' {
      tail := s;
    } else {
      tail := FragmentSplits(s[1..]);
      assert s == [s[0]] + s[1..];
      assert s == [s[0]] + UpToFragment(s[1..]) + tail;
    }
  }

  lemma PureOfSpelling(raw: string, core: string, tail: string)
    requires Spells(raw, core, tail)
    ensures Pure(raw) == "atomic:" + core
  {
    hide UpToFragment;
    if raw == "did:ad:" + core + tail {
      CutAtFragment("did:ad:" + core, tail);
      assert ("did:ad:" + core)[7..] == core;
    } else {
      CutAtFragment("atomic:" + core, tail);
      assert raw[7..] == core + tail;
    }
  }

  lemma SpellingOf(raw: string) returns (core: string, tail: string)
    requires "did:ad:" <= raw || ("atomic:" <= raw && !("atomic://" <= raw))
    ensures Spells(raw, core, tail)
  {
    tail := FragmentSplits(raw[7..]);
    core := UpToFragment(raw[7..]);
    assert raw == raw[..7] + raw[7..];
    if "did:ad:" <= raw {
      assert raw[..7] == "did:ad:";
    } else {
      assert raw[..7] == "atomic:";
    }
  }

  /** Every spelling of an Atomic identifier compares as the identifier itself, and
      anything else as it is written. */
  lemma PureIsIdentifier(raw: string)
    ensures forall core, tail :: Spells(raw, core, tail) ==> Pure(raw) == "atomic:" + core
    ensures (forall core, tail :: !Spells(raw, core, tail)) ==> Pure(raw) == raw
  {
    forall core, tail | Spells(raw, core, tail) ensures Pure(raw) == "atomic:" + core {
      PureOfSpelling(raw, core, tail);
    }
    if "did:ad:" <= raw || ("atomic:" <= raw && !("atomic://" <= raw)) {
      var core, tail := SpellingOf(raw);
    }
  }

  // ----- Rows -----

  /** The row of every record of the batch, as it is named once new rows have subjects. */
  function RowNames(p: Progress, mint: map<string, Subject>): (names: map<string, Subject>)
    ensures forall x :: x in p.bindings ==> x in names && names[x] == SubstRef(mint, p.bindings[x])
  {
    map x | x in p.bindings :: SubstRef(mint, p.bindings[x])
  }

  /** Resolving and then naming the new rows gives the mirror under their final names. */
  lemma {:induction false} MintedMirrors(p: Progress, mint: map<string, Subject>, v: Value)
    requires Resolve(p.bindings, v).Ok?
    ensures Mirrors(RowNames(p, mint), v, Subst(mint, Resolve(p.bindings, v).value))
    decreases v
  {
    var names := RowNames(p, mint);
    match v
    case List(items) =>
      forall i | 0 <= i < |items|
        ensures Resolve(p.bindings, items[i]).Ok? && Mirrors(names, items[i], Subst(mint, Resolve(p.bindings, items[i]).value))
      {
        MintedMirrors(p, mint, items[i]);
      }
    case Object(fields) =>
      forall k | k in fields
        ensures Resolve(p.bindings, fields[k]).Ok? && Mirrors(names, fields[k], Subst(mint, Resolve(p.bindings, fields[k]).value))
      {
        MintedMirrors(p, mint, fields[k]);
      }
    case _ =>
  }

  /** The parent of a record, by name. */
  function ParentIn(names: map<string, Subject>, r: Record): Subject {
    if "local:" <= r.parent && r.parent[6..] in names then names[r.parent[6..]] else r.parent
  }

  /** The row holds exactly the record's values. */
  ghost predicate HoldsValues(names: map<string, Subject>, values: map<Property, Value>, row: Row) {
    row.values.Keys == values.Keys && forall q :: q in values ==> Mirrors(names, values[q], row.values[q])
  }

  ghost predicate CreatedFrom(names: map<string, Subject>, r: Record, row: Row) {
    && row.localId == Some(r.sourceId) && row.isA == Some(r.isA) && row.parent == Some(ParentIn(names, r))
    && HoldsValues(names, r.values, row) && row.baseline == Saved(row.values, map[])
  }

  ghost predicate CarriesSource(store: Store, parent: Subject, r: Record, s: Subject) {
    s in store && Under(store[s], parent) && store[s].localId == Some(r.sourceId)
  }

  ghost predicate CarriesLegacy(store: Store, parent: Subject, r: Record, s: Subject) {
    && s in store && Under(store[s], parent)
    && r.legacy.Legacy? && r.legacy.property in store[s].values && store[s].values[r.legacy.property] == r.legacy.value
  }

  /** The one row under the parent with the record's source id; without such a row,
      the one row there with its legacy value, if that row was never imported. */
  ghost predicate FoundFor(store: Store, parent: Subject, r: Record, s: Subject) {
    && (if exists t :: CarriesSource(store, parent, r, t)
        then forall t :: CarriesSource(store, parent, r, t) <==> t == s
        else (forall t :: CarriesLegacy(store, parent, r, t) <==> t == s) && s in store && store[s].localId.None?)
    && s in store && store[s].isA.Some? && forall k :: 0 <= k < |r.isA| ==> r.isA[k] in store[s].isA.value
  }

  ghost predicate FoundNowhere(store: Store, parent: Subject, r: Record) {
    forall t :: !CarriesSource(store, parent, r, t) && !CarriesLegacy(store, parent, r, t)
  }

  lemma MatchesByProperties(store: Store, parent: Subject, r: Record)
    requires !IsLocal(parent)
    ensures forall t :: t in Matches(store, parent, r) <==>
      if exists u :: CarriesSource(store, parent, r, u) then CarriesSource(store, parent, r, t) else CarriesLegacy(store, parent, r, t)
  {
    hide Under;
    var known := BySource(store, parent, r.sourceId);
    assert forall t :: t in known <==> CarriesSource(store, parent, r, t);
    assert forall t :: t in ByLegacy(store, parent, r.legacy) <==> CarriesLegacy(store, parent, r, t);
  }

  lemma MatchedAlone(store: Store, parent: Subject, r: Record, s: Subject)
    requires Tidy(store)
    ensures Matches(store, parent, r) == {s} ==> s in store && FindRow(store, parent, r) == Fits(s, store[s], r)
    ensures FindRow(store, parent, r) == Found(Some(s)) ==> Matches(store, parent, r) == {s}
    ensures FindRow(store, parent, r) == Found(None) <==> Matches(store, parent, r) == {}
  {
    var matches := Matches(store, parent, r);
    if FindRow(store, parent, r).Found? {
      FoundAlone(store, parent, r);
    }
    if matches == {s} {
      NeverReviewed(store, matches);
    }
    hide Matches, Tidy, Fits;
  }

  lemma FitsByProperties(store: Store, parent: Subject, r: Record, s: Subject)
    requires s in store && Under(store[s], parent) && (CarriesSource(store, parent, r, s) || forall t :: !CarriesSource(store, parent, r, t))
    ensures Fits(s, store[s], r) == Found(Some(s)) <==>
      && store[s].isA.Some? && (forall k :: 0 <= k < |r.isA| ==> r.isA[k] in store[s].isA.value)
      && (CarriesSource(store, parent, r, s) || store[s].localId.None?)
  {
    hide Under;
    assert store[s].localId == Some(r.sourceId) <==> CarriesSource(store, parent, r, s);
  }

  /** Matching, told from the rows' own properties, where no duplicate was reviewed. */
  lemma FindsByProperties(store: Store, parent: Subject, r: Record)
    requires Tidy(store) && !IsLocal(parent)
    ensures FindRow(store, parent, r) == Found(None) <==> FoundNowhere(store, parent, r)
    ensures forall s :: FindRow(store, parent, r) == Found(Some(s)) <==> FoundFor(store, parent, r, s)
  {
    hide FindRow, Matches, Tidy, Fits, FoundFor, CarriesSource, CarriesLegacy;
    MatchesByProperties(store, parent, r);
    forall s ensures FindRow(store, parent, r) == Found(Some(s)) <==> FoundFor(store, parent, r, s) {
      FindsOne(store, parent, r, s);
    }
    MatchedAlone(store, parent, r, "");
    if FoundNowhere(store, parent, r) {
      assert forall t :: t !in Matches(store, parent, r);
    } else if Matches(store, parent, r) == {} {
      assert forall t :: t !in Matches(store, parent, r);
    }
  }

  lemma FindsOne(store: Store, parent: Subject, r: Record, s: Subject)
    requires Tidy(store) && !IsLocal(parent)
    ensures FindRow(store, parent, r) == Found(Some(s)) <==> FoundFor(store, parent, r, s)
  {
    hide FindRow, Matches, Tidy, Fits, Under;
    var matches := Matches(store, parent, r);
    MatchesByProperties(store, parent, r);
    MatchedAlone(store, parent, r, s);
    if matches == {s} {
      FitsByProperties(store, parent, r, s);
      assert forall t :: t in matches <==> t == s;
    }
    if FoundFor(store, parent, r, s) {
      assert forall t :: t in matches <==> t == s;
      assert matches == {s};
    }
  }

  // ----- Whole imports -----

  /** What an import leaves of one record: the row it already had, found by the
      rows' own properties, or a new row that holds exactly the record. */
  ghost predicate Stored(store: Store, after: Store, names: map<string, Subject>, r: Record) {
    && r.localId in names && ("local:" <= r.parent ==> r.parent[6..] in names)
    && names[r.localId] in after
    && if names[r.localId] in store then FoundFor(store, ParentIn(names, r), r, names[r.localId])
       else FoundNowhere(store, ParentIn(names, r), r) && CreatedFrom(names, r, after[names[r.localId]])
  }

  lemma LocalText(s: string)
    ensures IsLocal(s) <==> "local:" <= s
    ensures IsLocal(s) ==> LocalPart(s) == s[6..]
  {
  }

  /** A parent's name is where the record's row is looked for or put. */
  lemma ParentName(store: Store, records: seq<Record>, p: Progress, mint: map<string, Subject>, r: Record)
    requires Bindings(store, records, p, mint) && r in records
    ensures var names := RowNames(p, mint);
      && r.localId in names && r.localId in p.destinations && ("local:" <= r.parent ==> r.parent[6..] in names)
      && ParentIn(names, r) == SubstRef(mint, p.destinations[r.localId])
      && (!IsLocal(p.destinations[r.localId]) ==> ParentIn(names, r) == p.destinations[r.localId])
  {
    BatchIsPlaced(store, records, p, mint, r);
    LocalText(r.parent);
    hide Bindings, Pure, FindRow;
    DestinationKind(store, records, p, mint, r);
  }

  /** Nothing in the destination is under a row that is still to be created. */
  lemma NothingUnderNew(store: Store, records: seq<Record>, p: Progress, mint: map<string, Subject>, x: string, r: Record)
    requires Bindings(store, records, p, mint) && x in mint
    ensures FoundNowhere(store, mint[x], r)
  {
    hide Bindings, Pure;
    forall t | t in store ensures !Under(store[t], mint[x]) {
      MintsAvoidRow(store, records, p, mint, t);
    }
  }

  lemma NewRowStored(store: Store, records: seq<Record>, p: Progress, mint: map<string, Subject>, after: Store, r: Record)
    requires Bindings(store, records, p, mint) && NewRows(records, p, mint, |records|, after) && r in records && r.localId in mint
    requires AllResolve(p.bindings, r.values)
    ensures RowNames(p, mint)[r.localId] == mint[r.localId] && mint[r.localId] in after
    ensures CreatedFrom(RowNames(p, mint), r, after[mint[r.localId]])
  {
    hide Bindings, Mirrors, Subst, Resolve, AllClean;
    assert records[..|records|] == records;
    CreatesAreMinted(store, records, p, mint, r);
    PlacedLocally(store, records, p, mint, r);
    ParentName(store, records, p, mint, r);
    var row := after[mint[r.localId]];
    assert row == NewRow(mint, NewRowFor(p, r));
    forall q | q in r.values ensures q in row.values && Mirrors(RowNames(p, mint), r.values[q], row.values[q]) {
      MintedMirrors(p, mint, r.values[q]);
    }
  }

  lemma OldRowStored(store: Store, records: seq<Record>, p: Progress, mint: map<string, Subject>, after: Store, r: Record)
    requires Bindings(store, records, p, mint) && OldRows(store, records, p, mint, |records|, after) && r in records && r.localId !in mint
    ensures var s := RowNames(p, mint)[r.localId];
      s in store && s in after && s == p.bindings[r.localId] && FoundFor(store, ParentIn(RowNames(p, mint), r), r, s)
  {
    hide Bindings, FoundFor, FindRow, RowBy, LastWriter;
    assert records[..|records|] == records;
    CreatesAreMinted(store, records, p, mint, r);
    PlacedLocally(store, records, p, mint, r);
    ParentName(store, records, p, mint, r);
    BatchIsPlaced(store, records, p, mint, r);
    OldPlace(store, p, r);
    FindsByProperties(store, p.destinations[r.localId], r);
  }

  lemma OldPlace(store: Store, p: Progress, r: Record)
    requires Tidy(store) && Placed(store, p, r) && !IsLocal(p.bindings[r.localId])
    ensures p.bindings[r.localId] in store && !IsLocal(p.destinations[r.localId])
    ensures FindRow(store, p.destinations[r.localId], r) == Found(Some(p.bindings[r.localId]))
  {
    PlacedOn(store, p, r);
    LocalRef(r.localId);
    hide FindRow, Pure, Fits, Matches;
  }

  lemma NewPlace(store: Store, records: seq<Record>, p: Progress, mint: map<string, Subject>, r: Record)
    requires Bindings(store, records, p, mint) && r in records && r.localId in mint
    ensures FoundNowhere(store, ParentIn(RowNames(p, mint), r), r)
  {
    hide Bindings, FoundNowhere, FindRow;
    CreatesAreMinted(store, records, p, mint, r);
    ParentName(store, records, p, mint, r);
    BatchIsPlaced(store, records, p, mint, r);
    DestinationKind(store, records, p, mint, r);
    var d := p.destinations[r.localId];
    if IsLocal(d) {
      NothingUnderNew(store, records, p, mint, LocalPart(d), r);
    } else {
      UnmatchedPlace(store, p, r);
      FindsByProperties(store, d, r);
    }
  }

  lemma UnmatchedPlace(store: Store, p: Progress, r: Record)
    requires Tidy(store) && Placed(store, p, r) && IsLocal(p.bindings[r.localId])
    ensures FindRow(store, p.destinations[r.localId], r) == Found(None)
  {
    PlacedOn(store, p, r);
    hide Pure, Matches;
  }

  ghost predicate AllStored(store: Store, after: Store, names: map<string, Subject>, records: seq<Record>) {
    forall r :: r in records ==> Stored(store, after, names, r)
  }

  /** No old row is lost, and every new row is some record's. */
  ghost predicate NothingElse(store: Store, after: Store, names: map<string, Subject>, records: seq<Record>) {
    && store.Keys <= after.Keys
    && forall s :: s in after && s !in store ==> exists r :: r in records && r.localId in names && names[r.localId] == s
  }

  /** Every changed value of an old row is what some record says. */
  ghost predicate ChangesSaid(store: Store, after: Store, names: map<string, Subject>, records: seq<Record>) {
    forall s, q :: s in store && s in after && Lookup(after[s].values, q) != Lookup(store[s].values, q) ==> SaidBy(store, after, records, names, s, q)
  }

  /** Everything an import leaves, from the records: there are names for the rows of
      the batch such that every record is stored under its name, nothing else is
      new, and a value of an old row changed only to what a record of that row that
      is not append-only says, references replaced by names. */
  lemma ImportStores(store: Store, records: seq<Record>, mint: map<string, Subject>, after: Store) returns (names: map<string, Subject>)
    requires Tidy(store) && ImportedInto(store, records, mint, after)
    ensures AllStored(store, after, names, records)
    ensures NothingElse(store, after, names, records)
    ensures ChangesSaid(store, after, names, records)
  {
    assert BindAll(store, records).Bound? && ImportEach(store, BindAll(store, records).progress, records).Ok?;
    hide *;
    var p := BindAll(store, records).progress;
    BindingsOf(store, records, mint, after);
    names := RowNames(p, mint);
    RecordsStored(store, records, p, mint, after);
    NothingElseAfter(store, records, p, mint, after);
    AllChangesSaid(store, records, mint, after);
  }

  lemma RecordsStored(store: Store, records: seq<Record>, p: Progress, mint: map<string, Subject>, after: Store)
    requires Bindings(store, records, p, mint) && StoreAfter(store, records, p, mint, |records|, after) && ImportEach(store, p, records).Ok?
    ensures AllStored(store, after, RowNames(p, mint), records)
  {
    hide Bindings, StoreAfter, ImportEach, Stored, RowNames, AllResolve;
    forall r | r in records ensures Stored(store, after, RowNames(p, mint), r) {
      var k :| 0 <= k < |records| && records[k] == r;
      EachResolves(store, p, records, k);
      RecordStored(store, records, p, mint, after, r);
    }
  }

  lemma NothingElseAfter(store: Store, records: seq<Record>, p: Progress, mint: map<string, Subject>, after: Store)
    requires Bindings(store, records, p, mint) && StoreAfter(store, records, p, mint, |records|, after)
    ensures NothingElse(store, after, RowNames(p, mint), records)
  {
    hide Bindings, RowBy, LastWriter, NewRows;
    assert records[..|records|] == records;
    forall s | s in after && s !in store ensures exists r :: r in records && r.localId in RowNames(p, mint) && RowNames(p, mint)[r.localId] == s {
      var r :| r in records && r.localId in mint && s == mint[r.localId];
      CreatesAreMinted(store, records, p, mint, r);
      PlacedLocally(store, records, p, mint, r);
    }
  }

  lemma AllChangesSaid(store: Store, records: seq<Record>, mint: map<string, Subject>, after: Store)
    requires Tidy(store) && ImportedInto(store, records, mint, after) && BindAll(store, records).Bound?
    ensures ChangesSaid(store, after, RowNames(BindAll(store, records).progress, mint), records)
  {
    hide Tidy, ImportedInto, BindAll, SaidBy, RowNames;
    var names := RowNames(BindAll(store, records).progress, mint);
    forall s, q | s in store && s in after && Lookup(after[s].values, q) != Lookup(store[s].values, q)
      ensures SaidBy(store, after, records, names, s, q)
    {
      ChangeIsSaid(store, records, mint, after, s, q);
    }
  }

  /** The new value is what a record that found the row says, where the row still held
      the last imported value. */
  ghost predicate SaidBy(store: Store, after: Store, records: seq<Record>, names: map<string, Subject>, s: Subject, q: Property)
    requires s in store && s in after
  {
    && !Diverged(store[s], q) && store[s].baseline.Saved?
    && q in after[s].values
    && exists r :: r in records && r.localId in names && names[r.localId] == s && !r.append && q in r.values && Mirrors(names, r.values[q], after[s].values[q])
  }

  lemma RecordStored(store: Store, records: seq<Record>, p: Progress, mint: map<string, Subject>, after: Store, r: Record)
    requires Bindings(store, records, p, mint) && StoreAfter(store, records, p, mint, |records|, after) && r in records
    requires AllResolve(p.bindings, r.values)
    ensures Stored(store, after, RowNames(p, mint), r)
  {
    hide Bindings, FoundFor, FoundNowhere, CreatedFrom, OldRows, NewRows, NoOtherRows, AllResolve;
    ParentName(store, records, p, mint, r);
    CreatesAreMinted(store, records, p, mint, r);
    if r.localId in mint {
      NewRowStored(store, records, p, mint, after, r);
      NewPlace(store, records, p, mint, r);
    } else {
      OldRowStored(store, records, p, mint, after, r);
    }
  }

  lemma ChangeIsSaid(store: Store, records: seq<Record>, mint: map<string, Subject>, after: Store, s: Subject, q: Property)
    requires Tidy(store) && ImportedInto(store, records, mint, after) && s in store && s in after
    requires Lookup(after[s].values, q) != Lookup(store[s].values, q)
    ensures SaidBy(store, after, records, RowNames(BindAll(store, records).progress, mint), s, q)
  {
    assert BindAll(store, records).Bound?;
    var p := BindAll(store, records).progress;
    hide Tidy, ImportedInto, BindAll, Mirrors, Resolve, Subst, Diverged, RowNames, SubstRef;
    var r := ChangedByUpdater(store, records, mint, after, s, q);
    ImportWritesExactly(store, records, mint, after, s, q);
    SaysMirrors(store, records, p, mint, r, q);
    FoundUnderName(store, p, mint, r, s);
  }

  lemma FoundUnderName(store: Store, p: Progress, mint: map<string, Subject>, r: Record, s: Subject)
    requires OnRow(store, p, r, s)
    ensures r.localId in RowNames(p, mint) && RowNames(p, mint)[r.localId] == s
  {
  }

  lemma SaysMirrors(store: Store, records: seq<Record>, p: Progress, mint: map<string, Subject>, r: Record, q: Property)
    requires BindAll(store, records) == Bound(p)
    ensures q in Says(store, records, r) ==> q in r.values && Mirrors(RowNames(p, mint), r.values[q], Subst(mint, Says(store, records, r)[q]))
    ensures q in Says(store, records, r) ==> Mirrors(p.bindings, r.values[q], Says(store, records, r)[q])
    ensures AllResolve(p.bindings, r.values) ==> Says(store, records, r).Keys == r.values.Keys
  {
    hide BindAll, Mirrors, Subst, RowNames;
    if q in Says(store, records, r) {
      MintedMirrors(p, mint, r.values[q]);
      ResolvedMirrors(p.bindings, r.values[q]);
    }
  }
}
