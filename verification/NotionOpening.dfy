/** From the preview's loops to the opening state of a run. */
module NotionOpening {
  import opened Wrappers
  import opened TextChunks
  import opened NotionModel
  import opened NotionRows
  import opened NotionViews
  import opened NotionSync
  import opened NotionHost
  import opened NotionFrames
  import opened NotionConvergence
  import opened NotionQuiet
  import opened NotionRuns
  import opened NotionPreview
  import opened NotionReady

  // ----- What each pass collects -----

  lemma {:induction false} FieldPassAt(w: World, fields: seq<Field>)
    requires FieldPass(w, fields).Ok?
    ensures |FieldPass(w, fields).value| == |fields|
    ensures forall i :: 0 <= i < |fields| ==> FieldCandidate(w, fields[i]) == Ok(FieldPass(w, fields).value[i])
  {
    if fields != [] {
      FieldPassAt(w, fields[..|fields| - 1]);
    }
  }

  lemma {:induction false} ViewPassAt(w: World, conn: Connection, c: Config, views: seq<ViewBinding>)
    requires ViewPass(w, conn, c, views).Ok?
    ensures |ViewPass(w, conn, c, views).value| == |views|
    ensures forall i :: 0 <= i < |views| ==> ViewCandidate(w, conn, c, views[i]) == Ok(ViewPass(w, conn, c, views).value[i])
  {
    hide ViewCandidate;
    if views != [] {
      ViewPassAt(w, conn, c, views[..|views| - 1]);
    }
  }

  lemma {:induction false} PagePassAt(w: World, conn: Connection, c: Config, byId: map<NotionId, Iri>, pages: seq<NotionId>)
    requires PagePass(w, conn, c, byId, pages).Ok?
    ensures |PagePass(w, conn, c, byId, pages).value| == |pages|
    ensures forall i :: 0 <= i < |pages| ==>
      PageCandidate(w, conn, c, pages[i], SubjectOf(byId, pages[i])) == Ok(PagePass(w, conn, c, byId, pages).value[i])
    ensures forall i, j :: 0 <= i < j < |pages| ==> pages[i] != pages[j]
  {
    hide PageCandidate;
    if pages != [] {
      var n := |pages| - 1;
      PagePassAt(w, conn, c, byId, pages[..n]);
      forall i | 0 <= i < n ensures pages[i] != pages[n] {
        assert pages[..n][i] == pages[i];
      }
    }
  }

  ghost predicate UnsyncedFrom(w: World, conn: Connection, c: Config, rows: seq<Iri>, cand: Candidate) {
    exists s :: s in rows && RowCandidate(w, conn, c, s) == Ok(cand) && RowIdentity(w, c, s) == Ok(None)
  }

  ghost predicate Unsynced(cands: seq<Candidate>, s: Iri) {
    exists i :: 0 <= i < |cands| && cands[i].subject == Some(s)
  }

  /** Rows that have a page, by page. */
  ghost predicate Indexed(w: World, c: Config, rows: seq<Iri>, byId: map<NotionId, Iri>) {
    && (forall x :: x in byId ==> byId[x] in rows && RowIdentity(w, c, byId[x]) == Ok(Some(x)))
    && (forall s :: s in rows ==> RowIdentity(w, c, s).Ok?)
    && (forall s :: s in rows && RowIdentity(w, c, s).value.Some? ==>
          RowIdentity(w, c, s).value.value in byId && byId[RowIdentity(w, c, s).value.value] == s)
  }

  /** Rows that have none yet, each once. */
  ghost predicate Waiting(w: World, conn: Connection, c: Config, rows: seq<Iri>, unsynced: seq<Candidate>) {
    && (forall s :: s in rows && RowIdentity(w, c, s) == Ok(None) ==> Unsynced(unsynced, s))
    && (forall i :: 0 <= i < |unsynced| ==> UnsyncedFrom(w, conn, c, rows, unsynced[i]))
    && (forall i, j :: 0 <= i < j < |unsynced| ==> unsynced[i].subject != unsynced[j].subject)
  }

  /** The row pass splits the rows into those with a page and those without. */
  ghost predicate Split(w: World, conn: Connection, c: Config, rows: seq<Iri>, r: Rows) {
    Indexed(w, c, rows, r.byId) && Waiting(w, conn, c, rows, r.unsynced)
  }

  lemma RowCandidateSubject(w: World, conn: Connection, c: Config, s: Iri)
    requires RowCandidate(w, conn, c, s).Ok?
    ensures RowCandidate(w, conn, c, s).value.subject == Some(s)
  {
  }

  lemma {:induction false} RowPassSplits(w: World, conn: Connection, c: Config, rows: seq<Iri>)
    requires RowPass(w, conn, c, rows).Ok?
    requires forall i, j :: 0 <= i < j < |rows| ==> rows[i] != rows[j]
    ensures Split(w, conn, c, rows, RowPass(w, conn, c, rows).value)
  {
    hide RowIdentity, RowCandidate;
    if rows != [] {
      var n := |rows| - 1;
      RowPassSplits(w, conn, c, rows[..n]);
      SplitGrows(w, conn, c, rows, RowPass(w, conn, c, rows[..n]).value, RowPass(w, conn, c, rows).value);
    }
  }

  lemma SplitGrows(w: World, conn: Connection, c: Config, rows: seq<Iri>, before: Rows, after: Rows)
    requires rows != [] && forall i, j :: 0 <= i < j < |rows| ==> rows[i] != rows[j]
    requires Split(w, conn, c, rows[..|rows| - 1], before)
    requires RowIdentity(w, c, rows[|rows| - 1]).Ok?
    requires var s := rows[|rows| - 1];
      match RowIdentity(w, c, s).value
      case Some(x) => x !in before.byId && after == before.(byId := before.byId[x := s])
      case None => RowCandidate(w, conn, c, s).Ok? && after == before.(unsynced := before.unsynced + [RowCandidate(w, conn, c, s).value])
    ensures Split(w, conn, c, rows, after)
  {
    hide RowIdentity, RowCandidate, Split;
    var n := |rows| - 1;
    var s := rows[n];
    assert rows == rows[..n] + [s];
    assert s !in rows[..n];
    match RowIdentity(w, c, s).value {
      case Some(x) => SplitSynced(w, conn, c, rows[..n], s, x, before);
      case None => SplitUnsynced(w, conn, c, rows[..n], s, RowCandidate(w, conn, c, s).value, before);
    }
  }

  lemma SplitSynced(w: World, conn: Connection, c: Config, rows: seq<Iri>, s: Iri, x: NotionId, before: Rows)
    requires s !in rows && Split(w, conn, c, rows, before)
    requires RowIdentity(w, c, s) == Ok(Some(x)) && x !in before.byId
    ensures Split(w, conn, c, rows + [s], before.(byId := before.byId[x := s]))
  {
    hide RowIdentity, RowCandidate, Unsynced;
    forall i | 0 <= i < |before.unsynced| ensures UnsyncedFrom(w, conn, c, rows + [s], before.unsynced[i]) {
      UnsyncedStays(w, conn, c, rows, s, before.unsynced[i]);
    }
  }

  lemma UnsyncedStays(w: World, conn: Connection, c: Config, rows: seq<Iri>, s: Iri, cand: Candidate)
    requires s !in rows && UnsyncedFrom(w, conn, c, rows, cand)
    ensures UnsyncedFrom(w, conn, c, rows + [s], cand) && cand.subject != Some(s)
  {
    var t :| t in rows && RowCandidate(w, conn, c, t) == Ok(cand) && RowIdentity(w, c, t) == Ok(None);
    assert t in rows + [s];
    RowCandidateSubject(w, conn, c, t);
  }

  lemma SplitUnsynced(w: World, conn: Connection, c: Config, rows: seq<Iri>, s: Iri, cand: Candidate, before: Rows)
    requires s !in rows && Split(w, conn, c, rows, before)
    requires RowIdentity(w, c, s) == Ok(None) && RowCandidate(w, conn, c, s) == Ok(cand)
    ensures Split(w, conn, c, rows + [s], before.(unsynced := before.unsynced + [cand]))
  {
    hide RowIdentity, RowCandidate, Waiting;
    WaitingGrows(w, conn, c, rows, s, cand, before.unsynced);
    assert Indexed(w, c, rows + [s], before.byId);
  }

  lemma WaitingGrows(w: World, conn: Connection, c: Config, rows: seq<Iri>, s: Iri, cand: Candidate, before: seq<Candidate>)
    requires s !in rows && Waiting(w, conn, c, rows, before)
    requires RowIdentity(w, c, s) == Ok(None) && RowCandidate(w, conn, c, s) == Ok(cand)
    ensures Waiting(w, conn, c, rows + [s], before + [cand])
  {
    hide RowIdentity, RowCandidate, Unsynced, UnsyncedFrom;
    var after := before + [cand];
    RowCandidateSubject(w, conn, c, s);
    forall t | t in rows + [s] && RowIdentity(w, c, t) == Ok(None) ensures Unsynced(after, t) {
      UnsyncedGrows(before, cand, t);
    }
    forall i | 0 <= i < |after| ensures UnsyncedFrom(w, conn, c, rows + [s], after[i]) {
      if i < |before| {
        UnsyncedStays(w, conn, c, rows, s, before[i]);
      } else {
        UnsyncedNow(w, conn, c, rows, s, cand);
      }
    }
    forall i | 0 <= i < |before| ensures before[i].subject != cand.subject {
      UnsyncedStays(w, conn, c, rows, s, before[i]);
    }
  }

  lemma UnsyncedNow(w: World, conn: Connection, c: Config, rows: seq<Iri>, s: Iri, cand: Candidate)
    requires RowIdentity(w, c, s) == Ok(None) && RowCandidate(w, conn, c, s) == Ok(cand)
    ensures UnsyncedFrom(w, conn, c, rows + [s], cand)
  {
    assert s in rows + [s];
  }

  lemma UnsyncedGrows(before: seq<Candidate>, cand: Candidate, t: Iri)
    ensures Unsynced(before, t) || cand.subject == Some(t) ==> Unsynced(before + [cand], t)
  {
    var after := before + [cand];
    if cand.subject == Some(t) {
      assert after[|before|].subject == Some(t);
    } else if Unsynced(before, t) {
      var i :| 0 <= i < |before| && before[i].subject == Some(t);
      assert after[i].subject == Some(t);
    }
  }

  lemma {:induction false} NoLostRows(w: World, c: Config, rows: seq<Iri>, pages: seq<NotionId>)
    requires LostRows(w, c, rows, pages) == []
    ensures forall s :: s in rows && RowIdentity(w, c, s).Ok? && RowIdentity(w, c, s).value.Some? ==> RowIdentity(w, c, s).value.value in pages
  {
    hide RowIdentity;
    if rows != [] {
      NoLostRows(w, c, rows[..|rows| - 1], pages);
      assert rows == rows[..|rows| - 1] + [rows[|rows| - 1]];
    }
  }

  lemma {:induction false} NoLostPages(keys: seq<RecordKey>, pages: seq<NotionId>)
    requires LostPages(keys, pages) == []
    ensures forall key :: key in keys && key.kind == PageChange ==> key.id in pages
  {
    if keys != [] {
      NoLostPages(keys[..|keys| - 1], pages);
      assert keys == keys[..|keys| - 1] + [keys[|keys| - 1]];
    }
  }

  // ----- The candidates, one by one -----

  function CandSlot(cand: Candidate): Slot {
    Slot(cand.kind, cand.id, cand.subject)
  }

  ghost predicate CandPending(w: World, conn: Connection, c: Config, cand: Candidate) {
    && Faithful(w, conn, c, cand)
    && Lives(w, CandSlot(cand))
    && Untagged(c, cand.subject)
    && (cand.kind == PageChange ==> OwnsIdentity(w, c, cand.id, cand.subject))
  }

  lemma FieldCandidatePending(w: World, conn: Connection, c: Config, i: nat, cand: Candidate)
    requires i < |c.fields| && CheckSchema(w, c).Ok? && TidyResources(w, c)
    requires FieldCandidate(w, c.fields[i]) == Ok(cand)
    ensures CandPending(w, conn, c, cand)
    ensures cand.kind == SchemaChange && cand.id == Some(c.fields[i].id) && cand.subject == Some(c.fields[i].property)
  {
    assert Standalone(w, c, c.fields[i].property);
  }

  lemma ViewCandidatePending(w: World, conn: Connection, c: Config, i: nat, cand: Candidate)
    requires i < |c.views| && TidyResources(w, c)
    requires ViewCandidate(w, conn, c, c.views[i]) == Ok(cand)
    ensures CandPending(w, conn, c, cand)
    ensures cand.kind == ViewChange && cand.id == Some(c.views[i].id) && cand.subject == Some(c.views[i].subject)
  {
    assert Standalone(w, c, c.views[i].subject);
  }

  lemma ReadRowInTable(w: World, conn: Connection, c: Config, s: Iri)
    requires ReadRow(w, conn, c, s).Ok?
    ensures s in w.resources && InTable(w.resources[s], c)
  {
  }

  lemma RowCandidatePending(w: World, conn: Connection, c: Config, s: Iri, cand: Candidate)
    requires TidyResources(w, c) && TidyTable(w, c)
    requires RowCandidate(w, conn, c, s) == Ok(cand) && RowIdentity(w, c, s) == Ok(None)
    ensures CandPending(w, conn, c, cand)
    ensures cand.kind == PageChange && cand.id == None && cand.subject == Some(s)
    ensures s in w.resources && InTable(w.resources[s], c)
  {
    ReadRowInTable(w, conn, c, s);
    assert TidyRow(w.resources[s], c);
  }

  /** In a tidy table only the row listed for a page carries its id or import identity. */
  lemma ListedRowOwns(w: World, conn: Connection, c: Config, rows: seq<Iri>, r: Rows, x: NotionId)
    requires TidyTable(w, c) && Split(w, conn, c, rows, r)
    requires forall s :: s in rows <==> s in w.resources && InTable(w.resources[s], c) && HasClass(w.resources[s], c)
    ensures OwnsIdentity(w, c, Some(x), SubjectOf(r.byId, x))
  {
    hide HasClass, InTable;
    forall s | s in TableMatches(w, c, c.identity, Id(x)) ensures Some(s) == SubjectOf(r.byId, x) {
      assert TidyRow(w.resources[s], c);
      assert RowIdentity(w, c, s) == Ok(Some(x));
    }
    forall s | s in TableMatches(w, c, LocalId, SourceId(c, x)) ensures Some(s) == SubjectOf(r.byId, x) {
      assert TidyRow(w.resources[s], c);
      SourceIdInjective(c, x, w.resources[s][c.identity].id);
      assert RowIdentity(w, c, s) == Ok(Some(x));
    }
    if x in r.byId {
      var s := r.byId[x];
      assert RowIdentity(w, c, s) == Ok(Some(x));
      assert TidyRow(w.resources[s], c);
    }
  }

  lemma PageCandidatePending(w: World, conn: Connection, c: Config, rows: seq<Iri>, r: Rows, x: NotionId, cand: Candidate)
    requires TidyResources(w, c) && TidyTable(w, c) && Split(w, conn, c, rows, r)
    requires forall s :: s in rows <==> s in w.resources && InTable(w.resources[s], c) && HasClass(w.resources[s], c)
    requires PageCandidate(w, conn, c, x, SubjectOf(r.byId, x)) == Ok(cand)
    ensures CandPending(w, conn, c, cand)
    ensures cand.kind == PageChange && cand.id == Some(x) && cand.subject == SubjectOf(r.byId, x)
  {
    ListedRowOwns(w, conn, c, rows, r, x);
    if x in r.byId {
      assert r.byId[x] in rows;
    }
  }

  lemma PendingFromCandidate(w: World, conn: Connection, c: Config, cand: Candidate, ch: Change)
    requires CheckSchema(w, c) == Ok(true) && CandPending(w, conn, c, cand)
    requires ch.kind == cand.kind && ch.id == cand.id && ch.subject == cand.subject && ch.local == cand.local && ch.remote == cand.remote
    ensures Pending(w, conn, c, ch)
  {
    ReadLocalProbe(w, conn, c, Probe(cand.kind, cand.id, cand.subject), ch, ch.subject);
    hide ReadLocal, ReadRemote, OwnsIdentity, CheckSchema, Lives;
  }

  lemma {:induction false} SchemaIsTrue(w: World, fields: seq<Field>)
    ensures CheckSchemaFields(w, fields).Ok? ==> CheckSchemaFields(w, fields) == Ok(true)
  {
    hide CheckSchemaField;
    if fields != [] {
      SchemaIsTrue(w, fields[1..]);
    }
  }

  // ----- The candidates, together -----

  ghost predicate AreFields(c: Config, cands: seq<Candidate>) {
    |cands| == |c.fields| && forall i :: 0 <= i < |cands| ==> CandSlot(cands[i]) == Slot(SchemaChange, Some(c.fields[i].id), Some(c.fields[i].property))
  }

  ghost predicate AreViews(c: Config, cands: seq<Candidate>) {
    |cands| == |c.views| && forall i :: 0 <= i < |cands| ==> CandSlot(cands[i]) == Slot(ViewChange, Some(c.views[i].id), Some(c.views[i].subject))
  }

  ghost predicate IsTableRow(w: World, c: Config, subject: Option<Iri>, identity: Option<NotionId>) {
    subject.Some? && subject.value in w.resources && InTable(w.resources[subject.value], c) && RowIdentity(w, c, subject.value) == Ok(identity)
  }

  ghost predicate AreNewRows(w: World, c: Config, cands: seq<Candidate>) {
    && (forall i :: 0 <= i < |cands| ==> cands[i].kind == PageChange && cands[i].id.None? && IsTableRow(w, c, cands[i].subject, None))
    && (forall i, j :: 0 <= i < j < |cands| ==> cands[i].subject != cands[j].subject)
  }

  ghost predicate ArePages(w: World, c: Config, pages: seq<NotionId>, cands: seq<Candidate>) {
    && |cands| == |pages|
    && (forall i :: 0 <= i < |cands| ==>
          && cands[i].kind == PageChange && cands[i].id == Some(pages[i])
          && (cands[i].subject.Some? ==> IsTableRow(w, c, cands[i].subject, Some(pages[i]))))
    && (forall i, j :: 0 <= i < j < |pages| ==> pages[i] != pages[j])
  }

  ghost predicate Distinct(cands: seq<Candidate>) {
    forall i, j :: 0 <= i < |cands| && 0 <= j < |cands| && i != j ==> Apart(CandSlot(cands[i]), CandSlot(cands[j]))
  }

  ghost predicate Foreign(a: seq<Candidate>, b: seq<Candidate>) {
    forall i, j :: 0 <= i < |a| && 0 <= j < |b| ==> Apart(CandSlot(a[i]), CandSlot(b[j]))
  }

  lemma DistinctConcat(a: seq<Candidate>, b: seq<Candidate>)
    requires Distinct(a) && Distinct(b) && Foreign(a, b)
    ensures Distinct(a + b)
  {
    forall i, j | 0 <= i < |a + b| && 0 <= j < |a + b| && i != j ensures Apart(CandSlot((a + b)[i]), CandSlot((a + b)[j])) {
      if i < |a| && j >= |a| {
        assert Apart(CandSlot(a[i]), CandSlot(b[j - |a|]));
      } else if i >= |a| && j < |a| {
        assert Apart(CandSlot(a[j]), CandSlot(b[i - |a|]));
      }
    }
  }

  lemma ForeignConcat(a: seq<Candidate>, b: seq<Candidate>, d: seq<Candidate>)
    requires Foreign(a, d) && Foreign(b, d)
    ensures Foreign(a + b, d)
  {
  }

  lemma CandidatesDistinct(w: World, c: Config, pages: seq<NotionId>, f: seq<Candidate>, v: seq<Candidate>, n: seq<Candidate>, g: seq<Candidate>)
    requires GoodConfig(c) && TidyResources(w, c)
    requires AreFields(c, f) && AreViews(c, v) && AreNewRows(w, c, n) && ArePages(w, c, pages, g)
    ensures Distinct(f + v + n + g)
  {
    SetupDistinct(w, c, f, v);
    RowsDistinct(w, c, pages, n, g);
    RowsForeign(w, c, pages, f, v, n, g);
    DistinctConcat(f, v);
    ForeignConcat(f, v, n);
    DistinctConcat(f + v, n);
    ForeignConcat(f, v, g);
    ForeignConcat(f + v, n, g);
    DistinctConcat(f + v + n, g);
  }

  lemma SetupDistinct(w: World, c: Config, f: seq<Candidate>, v: seq<Candidate>)
    requires AcceptedConfig(c) && TidyResources(w, c)
    requires AreFields(c, f) && AreViews(c, v)
    ensures Distinct(f) && Distinct(v) && Foreign(f, v)
  {
    forall i, j | 0 <= i < |f| && 0 <= j < |f| && i != j ensures Apart(CandSlot(f[i]), CandSlot(f[j])) {
      var a, b := if i < j then i else j, if i < j then j else i;
      assert c.fields[a].id != c.fields[b].id && c.fields[a].property != c.fields[b].property;
    }
    forall i, j | 0 <= i < |v| && 0 <= j < |v| && i != j ensures Apart(CandSlot(v[i]), CandSlot(v[j])) {
      var a, b := if i < j then i else j, if i < j then j else i;
      assert c.views[a].id != c.views[b].id && c.views[a].subject != c.views[b].subject;
    }
  }

  lemma RowsDistinct(w: World, c: Config, pages: seq<NotionId>, n: seq<Candidate>, g: seq<Candidate>)
    requires AreNewRows(w, c, n) && ArePages(w, c, pages, g)
    ensures Distinct(n) && Distinct(g) && Foreign(n, g)
  {
    forall i, j | 0 <= i < |n| && 0 <= j < |n| && i != j ensures Apart(CandSlot(n[i]), CandSlot(n[j])) {
      var a, b := if i < j then i else j, if i < j then j else i;
      assert n[a].subject != n[b].subject;
    }
    forall i, j | 0 <= i < |g| && 0 <= j < |g| && i != j ensures Apart(CandSlot(g[i]), CandSlot(g[j])) {
      var a, b := if i < j then i else j, if i < j then j else i;
      assert pages[a] != pages[b];
    }
  }

  lemma RowsForeign(w: World, c: Config, pages: seq<NotionId>, f: seq<Candidate>, v: seq<Candidate>, n: seq<Candidate>, g: seq<Candidate>)
    requires TidyResources(w, c)
    requires AreFields(c, f) && AreViews(c, v) && AreNewRows(w, c, n) && ArePages(w, c, pages, g)
    ensures Foreign(f, n) && Foreign(v, n) && Foreign(f, g) && Foreign(v, g)
  {
    forall i | 0 <= i < |f| ensures Standalone(w, c, f[i].subject.value) {
      assert CandSlot(f[i]) == Slot(SchemaChange, Some(c.fields[i].id), Some(c.fields[i].property));
    }
    forall i | 0 <= i < |v| ensures Standalone(w, c, v[i].subject.value) {
      assert CandSlot(v[i]) == Slot(ViewChange, Some(c.views[i].id), Some(c.views[i].subject));
    }
  }

  ghost predicate HasSubject(cands: seq<Candidate>, s: Iri) {
    exists i :: 0 <= i < |cands| && cands[i].kind == PageChange && cands[i].subject == Some(s)
  }

  /** What the candidates of a preview of tidy stores amount to. */
  ghost predicate Gathered(w: World, conn: Connection, c: Config, listing: Listing, cands: seq<Candidate>) {
    && (forall i :: 0 <= i < |cands| ==> CandPending(w, conn, c, cands[i]))
    && Distinct(cands)
    && (forall x :: x in w.pages ==> exists i :: 0 <= i < |cands| && cands[i].kind == PageChange && cands[i].id == Some(x))
    && (forall s :: s in w.resources && InTable(w.resources[s], c) && RowIdentity(w, c, s) == Ok(None) ==>
          HasSubject(cands, s))
    && (forall s, x :: s in w.resources && InTable(w.resources[s], c) && RowIdentity(w, c, s) == Ok(Some(x)) && x in listing.pages ==>
          HasSubject(cands, s))
  }

  lemma FieldsPending(w: World, conn: Connection, c: Config, f: seq<Candidate>)
    requires CheckSchema(w, c).Ok? && TidyResources(w, c) && FieldPass(w, c.fields) == Ok(f)
    ensures AreFields(c, f) && forall i :: 0 <= i < |f| ==> CandPending(w, conn, c, f[i])
  {
    FieldPassAt(w, c.fields);
    forall i | 0 <= i < |f|
      ensures CandPending(w, conn, c, f[i]) && CandSlot(f[i]) == Slot(SchemaChange, Some(c.fields[i].id), Some(c.fields[i].property))
    {
      FieldCandidatePending(w, conn, c, i, f[i]);
    }
  }

  lemma ViewsPending(w: World, conn: Connection, c: Config, v: seq<Candidate>)
    requires TidyResources(w, c) && ViewPass(w, conn, c, c.views) == Ok(v)
    ensures AreViews(c, v) && forall i :: 0 <= i < |v| ==> CandPending(w, conn, c, v[i])
  {
    ViewPassAt(w, conn, c, c.views);
    forall i | 0 <= i < |v|
      ensures CandPending(w, conn, c, v[i]) && CandSlot(v[i]) == Slot(ViewChange, Some(c.views[i].id), Some(c.views[i].subject))
    {
      ViewCandidatePending(w, conn, c, i, v[i]);
    }
  }

  lemma NewRowsPending(w: World, conn: Connection, c: Config, rows: seq<Iri>, r: Rows)
    requires TidyResources(w, c) && TidyTable(w, c) && Split(w, conn, c, rows, r)
    ensures AreNewRows(w, c, r.unsynced) && forall i :: 0 <= i < |r.unsynced| ==> CandPending(w, conn, c, r.unsynced[i])
  {
    hide CandPending, TidyResources, TidyTable;
    forall i | 0 <= i < |r.unsynced|
      ensures CandPending(w, conn, c, r.unsynced[i])
      ensures r.unsynced[i].kind == PageChange && r.unsynced[i].id.None? && IsTableRow(w, c, r.unsynced[i].subject, None)
    {
      assert UnsyncedFrom(w, conn, c, rows, r.unsynced[i]);
      var s :| s in rows && RowCandidate(w, conn, c, s) == Ok(r.unsynced[i]) && RowIdentity(w, c, s) == Ok(None);
      RowCandidatePending(w, conn, c, s, r.unsynced[i]);
    }
  }

  lemma PagesPending(w: World, conn: Connection, c: Config, rows: seq<Iri>, r: Rows, pages: seq<NotionId>, g: seq<Candidate>)
    requires TidyResources(w, c) && TidyTable(w, c) && Split(w, conn, c, rows, r)
    requires forall s :: s in rows <==> s in w.resources && InTable(w.resources[s], c) && HasClass(w.resources[s], c)
    requires PagePass(w, conn, c, r.byId, pages) == Ok(g)
    ensures ArePages(w, c, pages, g) && forall i :: 0 <= i < |g| ==> CandPending(w, conn, c, g[i]) && g[i].subject == SubjectOf(r.byId, pages[i])
  {
    PagePassAt(w, conn, c, r.byId, pages);
    hide CandPending, TidyResources, TidyTable, PageCandidate, Waiting, RowIdentity, PagePass;
    forall i | 0 <= i < |g|
      ensures CandPending(w, conn, c, g[i])
      ensures g[i].kind == PageChange && g[i].id == Some(pages[i]) && g[i].subject == SubjectOf(r.byId, pages[i])
      ensures g[i].subject.Some? ==> IsTableRow(w, c, g[i].subject, Some(pages[i]))
    {
      PageCandidatePending(w, conn, c, rows, r, pages[i], g[i]);
    }
  }

  lemma CandidatesGathered(w: World, conn: Connection, c: Config, listing: Listing, cands: seq<Candidate>)
    requires GoodConfig(c) && CheckSchema(w, c).Ok?
    requires Lists(w, conn, c, listing) && TidyResources(w, c) && TidyTable(w, c)
    requires Candidates(w, conn, c, listing) == Ok(cands)
    ensures Gathered(w, conn, c, listing, cands)
  {
    hide CandPending, CheckSchema, FieldPass, ViewPass, RowPass, PagePass, RowIdentity, Apart, GoodConfig;
    var f, v := FieldPass(w, c.fields).value, ViewPass(w, conn, c, c.views).value;
    var r := RowPass(w, conn, c, listing.rows).value;
    var g := PagePass(w, conn, c, r.byId, listing.pages).value;
    FieldsPending(w, conn, c, f);
    ViewsPending(w, conn, c, v);
    RowPassSplits(w, conn, c, listing.rows);
    NewRowsPending(w, conn, c, listing.rows, r);
    PagesPending(w, conn, c, listing.rows, r, listing.pages, g);
    CandidatesDistinct(w, c, listing.pages, f, v, r.unsynced, g);
    PagesCovered(w, conn, c, listing, f + v + r.unsynced, g);
    RowsCovered(w, conn, c, listing, r, f + v, g);
  }

  lemma PagesCovered(w: World, conn: Connection, c: Config, listing: Listing, a: seq<Candidate>, g: seq<Candidate>)
    requires Lists(w, conn, c, listing) && ArePages(w, c, listing.pages, g)
    ensures forall x :: x in w.pages ==> exists i :: 0 <= i < |a + g| && (a + g)[i].kind == PageChange && (a + g)[i].id == Some(x)
  {
    forall x | x in w.pages ensures exists i :: 0 <= i < |a + g| && (a + g)[i].kind == PageChange && (a + g)[i].id == Some(x) {
      var i :| 0 <= i < |listing.pages| && listing.pages[i] == x;
      assert (a + g)[|a| + i] == g[i];
    }
  }

  lemma RowsCovered(w: World, conn: Connection, c: Config, listing: Listing, r: Rows, a: seq<Candidate>, g: seq<Candidate>)
    requires Lists(w, conn, c, listing) && TidyTable(w, c) && Split(w, conn, c, listing.rows, r)
    requires AreNewRows(w, c, r.unsynced) && ArePages(w, c, listing.pages, g)
    requires forall i :: 0 <= i < |g| ==> g[i].subject == SubjectOf(r.byId, listing.pages[i])
    ensures var cands := a + r.unsynced + g;
      && (forall s :: s in w.resources && InTable(w.resources[s], c) && RowIdentity(w, c, s) == Ok(None) ==>
            HasSubject(cands, s))
      && (forall s, x :: s in w.resources && InTable(w.resources[s], c) && RowIdentity(w, c, s) == Ok(Some(x)) && x in listing.pages ==>
            HasSubject(cands, s))
  {
    hide RowIdentity, RowCandidate, HasSubject;
    var cands := a + r.unsynced + g;
    forall s | s in w.resources && InTable(w.resources[s], c) && RowIdentity(w, c, s) == Ok(None) ensures HasSubject(cands, s) {
      assert TidyRow(w.resources[s], c);
      NewRowCovered(w, c, r.unsynced, a, g, s);
    }
    forall s, x | s in w.resources && InTable(w.resources[s], c) && RowIdentity(w, c, s) == Ok(Some(x)) && x in listing.pages
      ensures HasSubject(cands, s)
    {
      assert TidyRow(w.resources[s], c);
      assert s in listing.rows;
      assert r.byId[x] == s;
      PageRowCovered(w, c, listing.pages, r.byId, a + r.unsynced, g, s, x);
    }
  }

  lemma NewRowCovered(w: World, c: Config, n: seq<Candidate>, a: seq<Candidate>, g: seq<Candidate>, s: Iri)
    requires AreNewRows(w, c, n) && Unsynced(n, s)
    ensures HasSubject(a + n + g, s)
  {
    hide IsTableRow;
    var i :| 0 <= i < |n| && n[i].subject == Some(s);
    assert (a + n + g)[|a| + i] == n[i];
  }

  lemma PageRowCovered(w: World, c: Config, pages: seq<NotionId>, byId: map<NotionId, Iri>, a: seq<Candidate>, g: seq<Candidate>, s: Iri, x: NotionId)
    requires ArePages(w, c, pages, g) && x in pages && x in byId && byId[x] == s
    requires forall i :: 0 <= i < |g| ==> g[i].subject == SubjectOf(byId, pages[i])
    ensures HasSubject(a + g, s)
  {
    hide IsTableRow;
    var i :| 0 <= i < |pages| && pages[i] == x;
    assert (a + g)[|a| + i] == g[i];
  }

  // ----- The opening state -----

  lemma TidyIsHosted(w: World, conn: Connection, c: Config, listing: Listing)
    requires Lists(w, conn, c, listing) && TidyTable(w, c)
    requires LostRows(w, c, listing.rows, listing.pages) == []
    ensures Hosted(w, c)
    ensures forall s :: s in w.resources && InTable(w.resources[s], c) ==>
      RowIdentity(w, c, s).Ok? && (RowIdentity(w, c, s).value.Some? ==> RowIdentity(w, c, s).value.value in listing.pages)
  {
    NoLostRows(w, c, listing.rows, listing.pages);
    forall s | s in w.resources && InTable(w.resources[s], c)
      ensures RowIdentity(w, c, s).Ok? && (RowIdentity(w, c, s).value.Some? ==> RowIdentity(w, c, s).value.value in listing.pages)
      ensures Get(w.resources[s], c.identity).Id? ==> RowIdentity(w, c, s) == Ok(Some(w.resources[s][c.identity].id))
    {
      assert TidyRow(w.resources[s], c);
      assert s in listing.rows;
    }
    forall x | x !in w.pages ensures TableMatches(w, c, c.identity, Id(x)) == {} && TableMatches(w, c, LocalId, SourceId(c, x)) == {} {
      forall s | s in TableMatches(w, c, LocalId, SourceId(c, x)) ensures false {
        assert TidyRow(w.resources[s], c);
        SourceIdInjective(c, x, w.resources[s][c.identity].id);
      }
    }
  }

  lemma CoveredFromCandidates(w: World, conn: Connection, c: Config, listing: Listing, cands: seq<Candidate>, slots: seq<Slot>)
    requires Gathered(w, conn, c, listing, cands)
    requires |slots| == |cands| && forall i :: 0 <= i < |cands| ==> slots[i] == CandSlot(cands[i])
    requires forall s :: s in w.resources && InTable(w.resources[s], c) ==>
      RowIdentity(w, c, s).Ok? && (RowIdentity(w, c, s).value.Some? ==> RowIdentity(w, c, s).value.value in listing.pages)
    ensures Covered(w, c, slots)
  {
    hide CandPending, Distinct, RowIdentity;
    forall x | x in w.pages ensures HasPage(slots, x) {
      var i :| 0 <= i < |cands| && cands[i].kind == PageChange && cands[i].id == Some(x);
      assert slots[i] == CandSlot(cands[i]);
    }
    forall s | s in w.resources && InTable(w.resources[s], c) ensures HasRow(slots, s) {
      var id := RowIdentity(w, c, s).value;
      assert RowIdentity(w, c, s) == Ok(id);
      assert id == None || id == Some(id.value);
      assert HasSubject(cands, s);
      var i :| 0 <= i < |cands| && cands[i].kind == PageChange && cands[i].subject == Some(s);
      assert slots[i] == CandSlot(cands[i]);
    }
  }

  /** A conflict-free preview of tidy stores whose changes are all writable opens
      a run that cannot fail. */
  lemma PreviewIsReady(w: World, conn: Connection, c: Config, listing: Listing, p: Proposal)
    requires GoodConfig(c)
    requires Lists(w, conn, c, listing) && TidyResources(w, c) && TidyTable(w, c)
    requires PreviewOf(w, conn, c, listing) == Ok(p) && p.conflicts == []
    requires forall i :: 0 <= i < |p.changes| ==> Writable(c, p.changes[i])
    requires "" !in w.pages
    ensures Ready(w, conn, c, p)
  {
    hide CheckSchema, Candidates, Gathered, GoodConfig, TidyResources, TidyTable, Writable, Settable, Pending, Covered, Hosted, Clean, ChangeOf, LostRows, LostPages, AddedAll, Faithful;
    var cands := Candidates(w, conn, c, listing).value;
    var start := Proposal(c.dataSource, [], []);
    var all := AddedAll(conn, start, cands);
    assert all.conflicts == [] && LostRows(w, c, listing.rows, listing.pages) == [] && LostPages(listing.keys, listing.pages) == [];
    AddedAllClean(conn, start, cands);
    CandidatesGathered(w, conn, c, listing, cands);
    TidyIsHosted(w, conn, c, listing);
    NoLostPages(listing.keys, listing.pages);
    SchemaIsTrue(w, c.fields);
    ChangesReady(w, conn, c, listing, cands, p);
    assert KnownPages(conn, w);
  }

  lemma ChangesReady(w: World, conn: Connection, c: Config, listing: Listing, cands: seq<Candidate>, p: Proposal)
    requires GoodConfig(c) && TidyResources(w, c) && CheckSchema(w, c).Ok?
    requires Gathered(w, conn, c, listing, cands)
    requires |p.changes| == |cands| && forall i :: 0 <= i < |cands| ==> Clean(conn, cands[i]) && p.changes[i] == ChangeOf(conn, cands[i])
    requires forall i :: 0 <= i < |p.changes| ==> Writable(c, p.changes[i])
    requires forall s :: s in w.resources && InTable(w.resources[s], c) ==>
      RowIdentity(w, c, s).Ok? && (RowIdentity(w, c, s).value.Some? ==> RowIdentity(w, c, s).value.value in listing.pages)
    ensures forall i :: 0 <= i < |p.changes| ==> Settable(c, p.changes[i]) && Pending(w, conn, c, p.changes[i])
    ensures Placed(w, p, OpeningSlots(p)) && Covered(w, c, OpeningSlots(p))
  {
    hide GoodConfig, TidyResources, Writable, Settable, Pending, Covered, Clean, RowIdentity, DecisionOn, Faithful, CheckSchema, Lives, Apart;
    SchemaOkIsTrue(w, c);
    var slots := OpeningSlots(p);
    forall i | 0 <= i < |p.changes|
      ensures Settable(c, p.changes[i]) && Pending(w, conn, c, p.changes[i])
      ensures slots[i] == CandSlot(cands[i]) && Lives(w, slots[i])
    {
      assert CandPending(w, conn, c, cands[i]);
      CandidateSettable(w, conn, c, cands[i]);
      PendingFromCandidate(w, conn, c, cands[i], p.changes[i]);
    }
    assert Distinct(cands);
    CoveredFromCandidates(w, conn, c, listing, cands, slots);
  }

  lemma SchemaOkIsTrue(w: World, c: Config)
    requires CheckSchema(w, c).Ok?
    ensures CheckSchema(w, c) == Ok(true)
  {
    SchemaIsTrue(w, c.fields);
  }
}
