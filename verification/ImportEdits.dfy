/** What an import does to the values of a row: it writes what the source moved,
    and leaves local edits alone until the source says the same. */
module ImportEdits {
  import opened Wrappers
  import opened ImportRecords
  import opened ImportParents
  import opened ImportStore
  import opened ImportHistory

  /** The row no longer holds the last imported value. */
  predicate Diverged(row: Row, q: Property) {
    Lookup(row.values, q) != Lookup(Prior(row), q)
  }

  /** Some incoming value clashes with the row. */
  ghost predicate AnyClash(row: Row, append: bool, values: map<Property, Value>) {
    exists q :: q in values && ClashesOn(row, append, q, values[q])
  }

  /** The row still holds the imported value of `q`, the source has another one, and nothing clashes. */
  ghost predicate Moves(row: Row, append: bool, values: map<Property, Value>, q: Property) {
    && row.baseline.Saved? && !append && !AnyClash(row, append, values)
    && !Diverged(row, q)
    && q in values && Lookup(Prior(row), q) != Some(values[q])
  }

  /** The binding loop found the row `s` for `r`. */
  ghost predicate FoundOn(store: Store, records: seq<Record>, r: Record, s: Subject) {
    BindAll(store, records).Bound? && r in records && OnRow(store, BindAll(store, records).progress, r, s)
  }

  /** What `r` says, its references resolved. */
  ghost function Says(store: Store, records: seq<Record>, r: Record): map<Property, Value>
    requires BindAll(store, records).Bound?
  {
    Incoming(BindAll(store, records).progress, r)
  }

  ghost predicate Conflicts(store: Store, records: seq<Record>, r: Record, s: Subject) {
    FoundOn(store, records, r, s) && AnyClash(store[s], r.append, Says(store, records, r))
  }

  ghost predicate Updates(store: Store, records: seq<Record>, r: Record, s: Subject, q: Property) {
    FoundOn(store, records, r, s) && Moves(store[s], r.append, Says(store, records, r), q)
  }

  // ----- One row -----

  /** The old row `s` after the import, by its last writer. */
  lemma RowAfter(store: Store, records: seq<Record>, mint: map<string, Subject>, after: Store, s: Subject) returns (w: Option<Record>)
    requires Tidy(store) && ImportedInto(store, records, mint, after) && s in store
    ensures var p := BindAll(store, records).progress;
      && Bindings(store, records, p, mint) && TidyRow(store[s]) && s in after
      && after[s] == RowBy(store, p, mint, s, w)
      && (w.Some? ==> w.value in records && WriteTo(store, p, w.value, s).Some? && OnRow(store, p, w.value, s))
      && (w.None? ==> after[s] == store[s] && forall r :: r in records ==> WriteTo(store, p, r, s).None?)
  {
    hide Tidy, BindAll, Import, Minted, Bindings, RowBy, WriteTo;
    BindingsOf(store, records, mint, after);
    var p := BindAll(store, records).progress;
    assert records[..|records|] == records;
    w := LastWriter(store, p, records, |records|, s);
    RowIsTidy(store, records, p, mint, s);
    UnwrittenRow(store, p, mint, s);
  }

  /** What the write of one record leaves of `q`, in value and in baseline. */
  lemma WrittenValue(store: Store, p: Progress, mint: map<string, Subject>, s: Subject, r: Record, q: Property)
    requires WriteTo(store, p, r, s).Some? && TidyRow(store[s])
    ensures var row, after, incoming := store[s], RowBy(store, p, mint, s, Some(r)), Incoming(p, r);
      && !AnyClash(row, r.append, incoming)
      && Lookup(after.values, q) == (if Moves(row, r.append, incoming, q) then Some(Subst(mint, incoming[q])) else Lookup(row.values, q))
      && Lookup(Prior(after), q) == (if q in incoming then Some(Subst(mint, incoming[q])) else Lookup(Prior(row), q))
  {
    hide MergeRow, Incoming, SetRow, Subst;
    WriteIsMerge(store, p, s, r);
    WrittenRow(mint, s, store[s], r, Incoming(p, r));
    PutsExactly(s, store[s], r, Incoming(p, r));
    ClashesWhen(s, store[s], r, Incoming(p, r));
  }

  /** A record that moves something on its row writes the row. */
  lemma MoverWrites(store: Store, p: Progress, r: Record, s: Subject, q: Property)
    requires OnRow(store, p, r, s) && Moves(store[s], r.append, Incoming(p, r), q)
    ensures WriteTo(store, p, r, s).Some? && store[s].baseline.Saved?
  {
    hide Judge, Incoming;
    ClashesWhen(s, store[s], r, Incoming(p, r));
    assert Lookup(Prior(store[s]) + Incoming(p, r), q) != Lookup(Prior(store[s]), q);
  }

  /** Only one record can have found a row with a source id. */
  lemma AloneOnRow(store: Store, records: seq<Record>, mint: map<string, Subject>, p: Progress, s: Subject, r: Record, t: Record)
    requires Bindings(store, records, p, mint) && r in records && t in records
    requires OnRow(store, p, r, s) && OnRow(store, p, t, s) && TidyRow(store[s]) && store[s].baseline.Saved?
    ensures r == t
  {
    hide Bindings;
    if r != t {
      SharedRow(store, records, p, mint, r, t);
    }
  }

  lemma UpdaterWrites(store: Store, records: seq<Record>, mint: map<string, Subject>, after: Store, s: Subject, q: Property, r: Record)
    requires Tidy(store) && ImportedInto(store, records, mint, after) && s in store && Updates(store, records, r, s, q)
    ensures s in after && Lookup(after[s].values, q) == Some(Subst(mint, Says(store, records, r)[q]))
  {
    assert q in Says(store, records, r);
    var p := BindAll(store, records).progress;
    hide Tidy, ImportedInto, BindAll, Bindings, Incoming, RowBy, WriteTo, OnRow, Moves, LastWriter, Subst, TidyRow;
    var w := RowAfter(store, records, mint, after, s);
    MoverWrites(store, p, r, s, q);
    AloneOnRow(store, records, mint, p, s, r, w.value);
    WrittenValue(store, p, mint, s, r, q);
  }

  lemma ChangedByUpdater(store: Store, records: seq<Record>, mint: map<string, Subject>, after: Store, s: Subject, q: Property) returns (r: Record)
    requires Tidy(store) && ImportedInto(store, records, mint, after) && s in store
    requires s in after ==> Lookup(after[s].values, q) != Lookup(store[s].values, q)
    ensures Updates(store, records, r, s, q)
  {
    assert BindAll(store, records).Bound?;
    var p := BindAll(store, records).progress;
    hide Tidy, ImportedInto, BindAll, Bindings, Incoming, RowBy, WriteTo, OnRow, Moves, LastWriter, Subst, TidyRow;
    var w := RowAfter(store, records, mint, after, s);
    r := w.value;
    WrittenValue(store, p, mint, s, r, q);
  }

  // ----- Whole imports -----

  /** Everything an import does to an old row's values: a value becomes what the
      source says exactly where a record that is not append-only and has no
      conflict on this row moves an unedited value; every other value stays. */
  lemma ImportWritesExactly(store: Store, records: seq<Record>, mint: map<string, Subject>, after: Store, s: Subject, q: Property)
    requires Tidy(store) && ImportedInto(store, records, mint, after) && s in store
    ensures s in after
    ensures forall r :: Updates(store, records, r, s, q) ==> Lookup(after[s].values, q) == Some(Subst(mint, Says(store, records, r)[q]))
    ensures (forall r :: !Updates(store, records, r, s, q)) ==> Lookup(after[s].values, q) == Lookup(store[s].values, q)
  {
    assert BindAll(store, records).Bound?;
    hide Tidy, ImportedInto, BindAll, FoundOn, Says, Subst, Bindings, RowBy, LastWriter;
    forall r | Updates(store, records, r, s, q)
      ensures s in after && Lookup(after[s].values, q) == Some(Subst(mint, Says(store, records, r)[q]))
    {
      UpdaterWrites(store, records, mint, after, s, q, r);
    }
    var w := RowAfter(store, records, mint, after, s);
    if Lookup(after[s].values, q) != Lookup(store[s].values, q) {
      var r := ChangedByUpdater(store, records, mint, after, s, q);
    }
  }

  /** The report has a conflict on `s` exactly when some record that found `s` clashes with it. */
  lemma ConflictsReported(store: Store, records: seq<Record>, s: Subject)
    requires Import(store, records).Ok? && BindAll(store, records).Bound?
    ensures (exists clashes :: ImportConflict(s, clashes) in Import(store, records).value.problems) <==> exists r :: Conflicts(store, records, r, s)
  {
    var p := BindAll(store, records).progress;
    hide BindAll, ImportEach, OnRow, AnyClash;
    EachReports(store, p, records, s);
    assert forall r :: Conflicts(store, records, r, s) <==> r in records && ClashesIn(store, p, r, s);
  }

  ghost predicate ClashesIn(store: Store, p: Progress, r: Record, s: Subject) {
    OnRow(store, p, r, s) && AnyClash(store[s], r.append, Incoming(p, r))
  }

  lemma {:induction false} EachReports(store: Store, p: Progress, records: seq<Record>, s: Subject)
    requires ImportEach(store, p, records).Ok?
    ensures (exists clashes :: ImportConflict(s, clashes) in ImportEach(store, p, records).value.problems)
      <==> exists r :: r in records && ClashesIn(store, p, r, s)
  {
    hide ImportOne, ClashesIn;
    if records != [] {
      var n := |records| - 1;
      assert records == records[..n] + [records[n]];
      EachReports(store, p, records[..n], s);
      OneReports(store, p, ImportEach(store, p, records[..n]).value, records[n], s);
    }
  }

  lemma OneReports(store: Store, p: Progress, report: Report, r: Record, s: Subject)
    requires ImportOne(store, p, report, r).Ok?
    ensures var problems := ImportOne(store, p, report, r).value.problems;
      (exists clashes :: ImportConflict(s, clashes) in problems)
        <==> (exists clashes :: ImportConflict(s, clashes) in report.problems) || ClashesIn(store, p, r, s)
  {
    hide MergeRow, ClashesOn;
    var t := p.bindings[r.localId];
    if OnRow(store, p, r, t) {
      ClashesWhen(t, store[t], r, Incoming(p, r));
      if MergeRow(t, store[t], r, Incoming(p, r)).Clashing? {
        var c := ImportConflict(t, MergeRow(t, store[t], r, Incoming(p, r)).clashes);
        var problems := ImportOne(store, p, report, r).value.problems;
        assert problems == report.problems + [c];
        assert c in problems;
      }
    }
  }

  // ----- What that means for local edits -----

  /** No import touches a value that was edited locally since it was last imported. */
  lemma ImportKeepsEdits(store: Store, records: seq<Record>, mint: map<string, Subject>, after: Store, s: Subject, q: Property)
    requires Tidy(store) && ImportedInto(store, records, mint, after) && s in store && Diverged(store[s], q)
    ensures s in after && Lookup(after[s].values, q) == Lookup(store[s].values, q)
  {
    hide Tidy, ImportedInto, Diverged, FoundOn, Says, AnyClash, Subst;
    ImportWritesExactly(store, records, mint, after, s, q);
  }

  /** A row that only append-only records found keeps all its values. */
  lemma AppendKeepsValues(store: Store, records: seq<Record>, mint: map<string, Subject>, after: Store, s: Subject)
    requires Tidy(store) && ImportedInto(store, records, mint, after) && s in store
    requires forall r :: FoundOn(store, records, r, s) ==> r.append
    ensures s in after && after[s].values == store[s].values
  {
    hide Tidy, ImportedInto, Diverged, FoundOn, Says, AnyClash, Bindings, RowBy, Subst;
    var w := RowAfter(store, records, mint, after, s);
    forall q ensures Lookup(after[s].values, q) == Lookup(store[s].values, q) {
      ImportWritesExactly(store, records, mint, after, s, q);
    }
    SameValues(after[s].values, store[s].values);
  }

  lemma SameValues(a: map<Property, Value>, b: map<Property, Value>)
    requires forall q :: Lookup(a, q) == Lookup(b, q)
    ensures a == b
  {
    forall q ensures q in a <==> q in b {
      assert Lookup(a, q) == Lookup(b, q);
    }
    forall q | q in a ensures a[q] == b[q] {
      assert Lookup(a, q) == Lookup(b, q);
    }
  }

  // ----- Over whole histories -----

  /** The import brings the very value the row holds. */
  ghost predicate SourceAgrees(store: Store, records: seq<Record>, s: Subject, q: Property)
    requires s in store
  {
    exists r :: FoundOn(store, records, r, s) && q in Says(store, records, r) && Lookup(store[s].values, q) == Some(Says(store, records, r)[q])
  }

  /** A write that does not bring the edited value leaves it an edit. */
  lemma WriteKeepsEdit(store: Store, p: Progress, mint: map<string, Subject>, s: Subject, r: Record, q: Property)
    requires WriteTo(store, p, r, s).Some? && TidyRow(store[s]) && Diverged(store[s], q)
    requires q in Incoming(p, r) ==> Lookup(store[s].values, q) != Some(Incoming(p, r)[q])
    ensures Diverged(RowBy(store, p, mint, s, Some(r)), q)
  {
    hide WriteTo, RowBy, Incoming, Subst, TidyRow;
    WrittenValue(store, p, mint, s, r, q);
    PriorStays(store[s], mint, q);
    if q in Incoming(p, r) {
      assert !ClashesOn(store[s], r.append, q, Incoming(p, r)[q]);
    }
  }

  lemma NotBrought(store: Store, records: seq<Record>, p: Progress, s: Subject, r: Record, q: Property)
    requires BindAll(store, records) == Bound(p) && r in records && OnRow(store, p, r, s) && s in store
    requires !SourceAgrees(store, records, s, q)
    ensures q in Incoming(p, r) ==> Lookup(store[s].values, q) != Some(Incoming(p, r)[q])
  {
    hide BindAll, OnRow, Incoming;
    assert FoundOn(store, records, r, s) && Says(store, records, r) == Incoming(p, r);
  }

  /** Without agreement an edit is still an edit after the import. */
  lemma EditStays(store: Store, records: seq<Record>, mint: map<string, Subject>, after: Store, s: Subject, q: Property)
    requires Tidy(store) && ImportedInto(store, records, mint, after) && s in store
    requires Diverged(store[s], q) && !SourceAgrees(store, records, s, q)
    ensures s in after && Lookup(after[s].values, q) == Lookup(store[s].values, q) && Diverged(after[s], q)
  {
    assert BindAll(store, records).Bound?;
    var p := BindAll(store, records).progress;
    hide *;
    ImportKeepsEdits(store, records, mint, after, s, q);
    var w := RowAfter(store, records, mint, after, s);
    if w.Some? {
      NotBrought(store, records, p, s, w.value, q);
      WriteKeepsEdit(store, p, mint, s, w.value, q);
    }
  }

  lemma PriorStays(row: Row, mint: map<string, Subject>, q: Property)
    requires TidyRow(row)
    ensures q in Prior(row) ==> Subst(mint, Prior(row)[q]) == Prior(row)[q]
  {
    if q in Prior(row) {
      CleanStays(mint, Prior(row)[q]);
    }
  }

  /** The step neither edits the value again nor imports that very value from the source. */
  ghost predicate LeavesAlone(a: Store, b: Store, s: Subject, q: Property)
    requires s in a
  {
    || (Edited(a, b) && s in b && Lookup(b[s].values, q) == Lookup(a[s].values, q))
    || exists records, mint :: ImportedInto(a, records, mint, b) && !SourceAgrees(a, records, s, q)
  }

  /** A local edit outlives every later import, of whatever batches and whatever
      else is edited in between, until the source itself says the same. */
  lemma {:induction false} EditOutlivesImports(stores: seq<Store>, i: nat, j: nat, s: Subject, q: Property)
    requires History(stores) && i <= j < |stores|
    requires s in stores[i] && Diverged(stores[i][s], q)
    requires forall k :: i <= k < j && s in stores[k] ==> LeavesAlone(stores[k], stores[k + 1], s, q)
    ensures s in stores[j] && Lookup(stores[j][s].values, q) == Lookup(stores[i][s].values, q) && Diverged(stores[j][s], q)
    decreases j
  {
    hide History, ImportedInto, SourceAgrees, Tidy;
    if i < j {
      EditOutlivesImports(stores, i, j - 1, s, q);
      var a, b := stores[j - 1], stores[j];
      assert LeavesAlone(stores[j - 1], stores[j - 1 + 1], s, q);
      if !Edited(a, b) || s !in b || Lookup(b[s].values, q) != Lookup(a[s].values, q) {
        var records, mint :| ImportedInto(a, records, mint, b) && !SourceAgrees(a, records, s, q);
        HistoryStaysTidy(stores, j - 1);
        EditStays(a, records, mint, b, s, q);
      }
    }
  }

  /** In every history, every import keeps every local edit, and every row that
      only append-only records found keeps all its values. */
  lemma HistoryKeepsEdits(stores: seq<Store>, i: nat, records: seq<Record>, mint: map<string, Subject>, s: Subject)
    requires History(stores) && i + 1 < |stores|
    requires ImportedInto(stores[i], records, mint, stores[i + 1]) && s in stores[i]
    ensures s in stores[i + 1]
    ensures forall q :: Diverged(stores[i][s], q) ==> Lookup(stores[i + 1][s].values, q) == Lookup(stores[i][s].values, q)
    ensures (forall r :: FoundOn(stores[i], records, r, s) ==> r.append) ==> stores[i + 1][s].values == stores[i][s].values
  {
    hide History, ImportedInto, FoundOn, Tidy, Diverged, Bindings, RowBy;
    HistoryStaysTidy(stores, i);
    var w := RowAfter(stores[i], records, mint, stores[i + 1], s);
    forall q | Diverged(stores[i][s], q) ensures Lookup(stores[i + 1][s].values, q) == Lookup(stores[i][s].values, q) {
      ImportKeepsEdits(stores[i], records, mint, stores[i + 1], s, q);
    }
    if forall r :: FoundOn(stores[i], records, r, s) ==> r.append {
      AppendKeepsValues(stores[i], records, mint, stores[i + 1], s);
    }
  }
}
