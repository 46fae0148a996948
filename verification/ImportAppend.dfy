/** An append-only batch imported again after the source changed: every changed
    record is reported, with exactly what changed, and nothing is written. */
module ImportAppend {
  import opened Wrappers
  import opened ImportRecords
  import opened ImportParents
  import opened ImportStore
  import opened ImportHistory
  import opened ImportRepeat
  import opened ImportSettles

  /** The same record, up to what it says of its properties. */
  predicate Alike(r: Record, t: Record) {
    t == r.(values := t.values)
  }

  predicate AlikeAll(records: seq<Record>, others: seq<Record>) {
    |records| == |others| && forall i :: 0 <= i < |records| ==> Alike(records[i], others[i])
  }

  // ----- Binding does not look at values -----

  lemma FindsAlike(store: Store, parent: string, r: Record, t: Record)
    requires Alike(r, t)
    ensures FindRow(store, parent, r) == FindRow(store, parent, t)
  {
    hide Pure, Under, NeedsReview, Decided;
    assert Matches(store, parent, r) == Matches(store, parent, t);
  }

  lemma VisitsAlike(store: Store, p: Progress, r: Record, t: Record)
    requires Alike(r, t)
    ensures VisitRecord(store, p, r) == VisitRecord(store, p, t)
  {
    hide Pure, FindRow;
    if !IsLocal(r.parent) || LocalPart(r.parent) in p.bindings {
      FindsAlike(store, ParentOf(p.bindings, r), r, t);
    }
  }

  lemma {:induction false} SweepsAlike(store: Store, p: Progress, records: seq<Record>, others: seq<Record>)
    requires AlikeAll(records, others)
    ensures var s, t := SweepOnce(store, p, records), SweepOnce(store, p, others);
      if s.Swept? then t.Swept? && t.progress == s.progress && AlikeAll(s.left, t.left) else s == t
    decreases |records|
  {
    hide VisitRecord;
    if records != [] {
      VisitsAlike(store, p, records[0], others[0]);
      match VisitRecord(store, p, records[0]) {
        case Skipped => SweepsAlike(store, p, records[1..], others[1..]);
        case Bound(next) => SweepsAlike(store, next, records[1..], others[1..]);
        case _ =>
      }
    }
  }

  lemma {:induction false} RoundsAlike(store: Store, p: Progress, records: seq<Record>, others: seq<Record>)
    requires AlikeAll(records, others)
    ensures Rounds(store, p, records) == Rounds(store, p, others)
    decreases |records|
  {
    hide SweepOnce;
    if records != [] {
      SweepsAlike(store, p, records, others);
      match SweepOnce(store, p, records) {
        case Stopped(_) =>
        case Swept(next, left) =>
          if |left| != |records| {
            RoundsAlike(store, next, left, SweepOnce(store, p, others).left);
          }
      }
    }
  }

  lemma BindsAlike(store: Store, records: seq<Record>, others: seq<Record>)
    requires AlikeAll(records, others)
    ensures BindAll(store, records) == BindAll(store, others)
  {
    hide Rounds;
    RoundsAlike(store, NOTHING_BOUND, records, others);
    assert forall i :: 0 <= i < |records| ==> Alike(records[i], others[i]);
  }

  // ----- Merging does -----

  /** The properties whose incoming value is not the imported one. */
  ghost predicate ChangedOnly(clashes: map<Property, ImportClash>, before: map<Property, Value>, values: map<Property, Value>) {
    forall q :: q in clashes <==> q in values && Lookup(before, q) != Some(values[q])
  }

  lemma UnchangedHolds(s: Subject, row: Row, r: Record, said: map<Property, Value>)
    requires !row.baseline.InvalidBaseline? && MergeRow(s, row, r, said) == Unchanged
    ensures row.localId.Some? && row.baseline.Saved?
    ensures forall q :: q in said ==> Lookup(row.baseline.values, q) == Some(said[q])
  {
    hide Judge;
    assert row.baseline.values == row.baseline.values + said;
    forall q | q in said ensures Lookup(row.baseline.values, q) == Some(said[q]) {
      assert (row.baseline.values + said)[q] == said[q];
    }
  }

  lemma AppendClashes(row: Row, values: map<Property, Value>)
    requires row.baseline.Saved?
    ensures ChangedOnly(Clashes(row, true, values, values.Keys), row.baseline.values, values)
    ensures Pick(row, true, values, values.Keys) == map[]
  {
    assert forall q :: q !in Pick(row, true, values, values.Keys);
  }

  /** Seen from a row that held everything the record said, exactly the changed values clash. */
  lemma ChangesClash(s: Subject, row: Row, r: Record, said: map<Property, Value>, t: Record, values: map<Property, Value>)
    requires !row.baseline.InvalidBaseline? && MergeRow(s, row, r, said) == Unchanged && Alike(r, t) && t.append
    requires values.Keys <= said.Keys
    ensures row.localId.Some?
    ensures var outcome := MergeRow(s, row, t, values);
      if outcome.Clashing? then outcome.clashes != map[] && ChangedOnly(outcome.clashes, said, values)
      else outcome.Unchanged? && forall q :: q in values ==> said[q] == values[q]
  {
    UnchangedHolds(s, row, r, said);
    AppendClashes(row, values);
    hide Judge, Clashes, Pick;
    if MergeRow(s, row, t, values).Clashing? {
      SameReference(Clashes(row, true, values, values.Keys), row.baseline.values, said, values);
    } else {
      NothingChanged(Clashes(row, true, values, values.Keys), row.baseline.values, said, values);
    }
  }

  lemma SameReference(clashes: map<Property, ImportClash>, before: map<Property, Value>, said: map<Property, Value>, values: map<Property, Value>)
    requires ChangedOnly(clashes, before, values) && values.Keys <= said.Keys
    requires forall q :: q in said ==> Lookup(before, q) == Some(said[q])
    ensures ChangedOnly(clashes, said, values)
  {
  }

  lemma NothingChanged(clashes: map<Property, ImportClash>, before: map<Property, Value>, said: map<Property, Value>, values: map<Property, Value>)
    requires clashes == map[] && ChangedOnly(clashes, before, values) && values.Keys <= said.Keys
    requires forall q :: q in said ==> Lookup(before, q) == Some(said[q])
    ensures before + values == before
    ensures forall q :: q in values ==> said[q] == values[q]
  {
    forall q | q in values ensures Lookup(before, q) == Some(values[q]) {
      assert q !in clashes;
    }
  }

  /** The repeat can be read: it sets no metadata, no new property, and its references resolve. */
  predicate Readable(bindings: map<string, Subject>, r: Record, t: Record) {
    t.append && t.values.Keys <= r.values.Keys && AllResolve(bindings, t.values)
  }

  ghost predicate Changed(q: Progress, r: Record, t: Record) {
    exists x :: x in Incoming(q, t) && Lookup(Incoming(q, r), x) != Some(Incoming(q, t)[x])
  }

  /** The conflict an append-only record meets on the row that is its own: exactly its changed values. */
  ghost predicate Reported(after: Store, q: Progress, r: Record, t: Record, problem: Problem) {
    && problem.ImportConflict? && r.localId in q.bindings
    && problem.subject == q.bindings[r.localId]
    && problem.subject in after && after[problem.subject].localId == Some(r.sourceId)
    && ChangedOnly(problem.clashes, Incoming(q, r), Incoming(q, t))
  }

  /** One problem for each changed record, in order, and none for the others. */
  ghost predicate Answered(after: Store, q: Progress, records: seq<Record>, others: seq<Record>, problems: seq<Problem>)
    requires |records| == |others|
  {
    if records == [] then problems == []
    else
      var n := |records| - 1;
      if Changed(q, records[n], others[n])
      then problems != [] && Reported(after, q, records[n], others[n], problems[|problems| - 1])
        && Answered(after, q, records[..n], others[..n], problems[..|problems| - 1])
      else Answered(after, q, records[..n], others[..n], problems)
  }

  /** The record's own row: it says what the record said and carries its source id. */
  ghost predicate OwnRow(after: Store, q: Progress, r: Record) {
    Settled(after, q, r) && after[q.bindings[r.localId]].localId == Some(r.sourceId)
  }

  lemma OneAnswered(after: Store, q: Progress, report: Report, r: Record, t: Record)
    requires OwnRow(after, q, r) && Alike(r, t) && Readable(q.bindings, r, t)
    ensures ImportOne(after, q, report, t).Ok?
    ensures var next := ImportOne(after, q, report, t).value;
      if Changed(q, r, t)
      then |next.problems| == |report.problems| + 1 && next == report.(problems := report.problems + [next.problems[|report.problems|]])
        && Reported(after, q, r, t, next.problems[|report.problems|])
      else next == report.(untouched := report.untouched + 1)
  {
    hide MergeRow, Resolve;
    var s := q.bindings[r.localId];
    assert Incoming(q, r).Keys == r.values.Keys && Incoming(q, t).Keys == t.values.Keys;
    ChangesClash(s, after[s], r, Incoming(q, r), t, Incoming(q, t));
    var outcome := MergeRow(s, after[s], t, Incoming(q, t));
    if outcome.Clashing? {
      assert outcome.clashes.Keys != {};
      var x :| x in outcome.clashes;
      assert Changed(q, r, t);
      assert ImportOne(after, q, report, t).value.problems == report.problems + [ImportConflict(s, outcome.clashes)];
    }
  }

  lemma {:induction false} EachAnswered(after: Store, q: Progress, records: seq<Record>, others: seq<Record>)
    requires AlikeAll(records, others)
    requires forall i :: 0 <= i < |records| ==> OwnRow(after, q, records[i]) && Readable(q.bindings, records[i], others[i])
    ensures ImportEach(after, q, others).Ok?
    ensures var report := ImportEach(after, q, others).value;
      && report.intents == [] && report.created == 0 && report.updated == 0 && report.untouched + |report.problems| == |records|
      && Answered(after, q, records, others, report.problems)
    decreases |records|
  {
    hide ImportOne, OwnRow, Readable, Changed, Reported;
    if records != [] {
      var n := |records| - 1;
      EachAnswered(after, q, records[..n], others[..n]);
      assert Alike(records[n], others[n]);
      OneAnswered(after, q, ImportEach(after, q, others[..n]).value, records[n], others[n]);
      var before, report := ImportEach(after, q, others[..n]).value, ImportEach(after, q, others).value;
      if Changed(q, records[n], others[n]) {
        assert report.problems[..|report.problems| - 1] == before.problems;
      }
    }
  }

  lemma OwnRowsAfter(store: Store, records: seq<Record>, mint: map<string, Subject>, after: Store)
    requires Tidy(store) && ImportedInto(store, records, mint, after)
    requires Import(store, records).value.problems == [] && OneRowEach(records, BindAll(store, records).progress)
    ensures BindAll(after, records).Bound?
    ensures forall r :: r in records ==> OwnRow(after, BindAll(after, records).progress, r)
  {
    hide Tidy, ImportedInto, BindAll, ImportEach, OneRowEach, Settled, Placed, FindRow, Owned;
    RepeatSettles(store, records, mint, after);
    ImportKeepsTidy(store, records, mint, after);
    BoundFacts(after, records);
    var q := BindAll(after, records).progress;
    forall r | r in records ensures OwnRow(after, q, r) {
      OwnRowOf(after, q, r);
    }
  }

  lemma OwnRowOf(after: Store, q: Progress, r: Record)
    requires Tidy(after) && Settled(after, q, r) && Placed(after, q, r)
    ensures OwnRow(after, q, r)
  {
    hide Judge, Incoming, FindRow, Pure, Matches;
    PlacedOn(after, q, r);
  }

  /** After a clean import that gave every record a row of its own, importing an
      append-only version of the batch with other values writes nothing and
      reports one conflict for each changed record, in order: on its own row,
      with exactly the changed values. */
  lemma AppendRepeatReports(store: Store, records: seq<Record>, mint: map<string, Subject>, after: Store, others: seq<Record>)
    requires Tidy(store) && ImportedInto(store, records, mint, after)
    requires Import(store, records).value.problems == [] && OneRowEach(records, BindAll(store, records).progress)
    requires AlikeAll(records, others)
    requires BindAll(after, records).Bound? ==>
      forall i :: 0 <= i < |records| ==> Readable(BindAll(after, records).progress.bindings, records[i], others[i])
    ensures BindAll(after, others).Bound? && Import(after, others).Ok?
    ensures var report := Import(after, others).value;
      && report.intents == [] && report.created == 0 && report.updated == 0 && report.untouched + |report.problems| == |records|
      && Answered(after, BindAll(after, others).progress, records, others, report.problems)
  {
    hide Tidy, ImportedInto, BindAll, ImportEach, OneRowEach, OwnRow, Readable, Answered;
    OwnRowsAfter(store, records, mint, after);
    BindsAlike(after, records, others);
    EachAnswered(after, BindAll(after, others).progress, records, others);
  }

  /** When every record changed, the problems are one to one with the records. */
  lemma {:induction false} AllAnswered(after: Store, q: Progress, records: seq<Record>, others: seq<Record>, problems: seq<Problem>)
    requires |records| == |others| && Answered(after, q, records, others, problems)
    requires forall i :: 0 <= i < |records| ==> Changed(q, records[i], others[i])
    ensures |problems| == |records|
    ensures forall i :: 0 <= i < |records| ==> Reported(after, q, records[i], others[i], problems[i])
    decreases |records|
  {
    hide Changed, Reported;
    if records != [] {
      var n := |records| - 1;
      AllAnswered(after, q, records[..n], others[..n], problems[..|problems| - 1]);
      forall i | 0 <= i < n ensures Reported(after, q, records[i], others[i], problems[i]) {
        assert Reported(after, q, records[..n][i], others[..n][i], problems[..|problems| - 1][i]);
      }
    }
  }

  /** Records that are only matched by source id never share a row. */
  lemma UnsharedRows(store: Store, records: seq<Record>, mint: map<string, Subject>, after: Store)
    requires Tidy(store) && ImportedInto(store, records, mint, after)
    requires forall r :: r in records ==> r.legacy.NoLegacy?
    ensures OneRowEach(records, BindAll(store, records).progress)
  {
    assert BindAll(store, records).Bound?;
    hide Tidy, ImportedInto, BindAll, Bindings, ImportEach, StoreAfter;
    BindingsOf(store, records, mint, after);
    var p := BindAll(store, records).progress;
    forall r, t | r in records && t in records && r != t && r.localId in p.bindings && t.localId in p.bindings
      ensures p.bindings[r.localId] != p.bindings[t.localId]
    {
      if p.bindings[r.localId] == p.bindings[t.localId] {
        UnsharedRow(store, records, p, mint, r, t);
      }
    }
  }

  lemma UnsharedRow(store: Store, records: seq<Record>, p: Progress, mint: map<string, Subject>, r: Record, t: Record)
    requires Bindings(store, records, p, mint) && r in records && t in records && r.legacy.NoLegacy?
    requires r.localId in p.bindings && t.localId in p.bindings && p.bindings[r.localId] == p.bindings[t.localId]
    ensures r == t
  {
    hide Bindings, Pure, Fits, FindRow;
    PlacedLocally(store, records, p, mint, r);
    PlacedLocally(store, records, p, mint, t);
    if r != t {
      if IsLocal(p.bindings[r.localId]) {
        assert r.localId == t.localId;
        BatchIsDistinct(store, records, p, mint);
        SameRecord(records, r, t);
      } else {
        SharedRow(store, records, p, mint, r, t);
        BatchIsPlaced(store, records, p, mint, r);
        PlacedOn(store, p, r);
      }
    }
  }
}
