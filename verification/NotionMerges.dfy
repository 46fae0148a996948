/** What a preview proposes, told from the saved baseline and the two sides alone. */
module NotionMerges {
  import opened Wrappers
  import opened NotionModel
  import opened NotionRows
  import opened NotionSync
  import opened NotionHost
  import opened NotionConvergence
  import opened NotionQuiet
  import opened NotionRuns
  import opened NotionCompletion
  import opened NotionPreview
  import opened NotionReady
  import opened NotionOpening
  import opened NotionSettled
  import Reconcile

  /** The value last agreed on, as the connection saved it; an empty id names nothing. */
  function ValueBefore(conn: Connection, kind: Kind, id: Option<NotionId>, k: string): Value {
    if id.Some? && id.value != "" && RecordKey(kind, id.value) in conn.records && conn.records[RecordKey(kind, id.value)].baseline.Some?
    then Get(conn.records[RecordKey(kind, id.value)].baseline.value, k) else Missing
  }

  function ValueOn(side: Option<Projection>, k: string): Value {
    if side.Some? then Get(side.value, k) else Missing
  }

  /** A value changed on one side only is desired; one that both sides hold, or neither changed, too. */
  predicate MergedAt(conn: Connection, ch: Change, k: string) {
    var before, here, there := ValueBefore(conn, ch.kind, ch.id, k), ValueOn(ch.local, k), ValueOn(ch.remote, k);
    && (there == before ==> Get(ch.desired, k) == here)
    && (here == before ==> Get(ch.desired, k) == there)
    && (here == there ==> Get(ch.desired, k) == here)
    && (here == there || here == before || there == before)
  }

  /** Both sides changed the value, differently. */
  predicate MovedApart(conn: Connection, cand: Candidate, k: string) {
    var before, here, there := ValueBefore(conn, cand.kind, cand.id, k), ValueOn(cand.local, k), ValueOn(cand.remote, k);
    here != before && there != before && here != there
  }

  /** The connection remembers the object under another subject. */
  predicate BoundElsewhere(conn: Connection, cand: Candidate) {
    && cand.id.Some? && cand.id.value != "" && RecordKey(cand.kind, cand.id.value) in conn.records
    && Some(conn.records[RecordKey(cand.kind, cand.id.value)].local) != cand.subject
  }

  ghost predicate Contested(conn: Connection, cand: Candidate) {
    BoundElsewhere(conn, cand) || exists k :: MovedApart(conn, cand, k)
  }

  /** The change proposed for a candidate: what it shows, and the merge of its sides. */
  ghost predicate ProposedFor(conn: Connection, cand: Candidate, ch: Change) {
    && ch.kind == cand.kind && ch.id == cand.id && ch.subject == cand.subject && ch.local == cand.local && ch.remote == cand.remote
    && forall k :: MergedAt(conn, ch, k)
  }

  /** The conflict names exactly what moved apart, or the lost identity. */
  ghost predicate Explains(conn: Connection, cand: Candidate, conflict: Conflict) {
    && conflict.id == cand.id
    && if BoundElsewhere(conn, cand) then conflict.fields == {"Missing or rebound Atomic identity"}
       else forall k :: k in conflict.fields <==> MovedApart(conn, cand, k)
  }

  /** Each contested candidate is one conflict and every other one change, in order. */
  ghost predicate Sorted(conn: Connection, cands: seq<Candidate>, changes: seq<Change>, conflicts: seq<Conflict>) {
    if cands == [] then changes == [] && conflicts == []
    else
      var n := |cands| - 1;
      if Contested(conn, cands[n])
      then conflicts != [] && Explains(conn, cands[n], conflicts[|conflicts| - 1]) && Sorted(conn, cands[..n], changes, conflicts[..|conflicts| - 1])
      else changes != [] && ProposedFor(conn, cands[n], changes[|changes| - 1]) && Sorted(conn, cands[..n], changes[..|changes| - 1], conflicts)
  }

  /** A side is shown exactly where the object exists there. */
  predicate Paired(cand: Candidate) {
    (cand.id.Some? <==> cand.remote.Some?) && (cand.subject.Some? <==> cand.local.Some?)
  }

  // ----- One candidate -----

  lemma MemberIsValue(p: Option<Projection>, k: string)
    ensures Reconcile.Member(SideOf(p), k) == if ValueOn(p, k).Missing? then None else Some(ValueOn(p, k))
  {
  }

  lemma BaseIsValue(conn: Connection, cand: Candidate, k: string)
    ensures Reconcile.Member(BaseOf(conn, cand), k)
      == if ValueBefore(conn, cand.kind, cand.id, k).Missing? then None else Some(ValueBefore(conn, cand.kind, cand.id, k))
  {
  }

  /** The three members compare as the three values do. */
  lemma JudgedByValues(conn: Connection, cand: Candidate, k: string)
    ensures var before, here, there := ValueBefore(conn, cand.kind, cand.id, k), ValueOn(cand.local, k), ValueOn(cand.remote, k);
      Reconcile.Judge(BaseOf(conn, cand), SideOf(cand.local), SideOf(cand.remote), k)
        == if here == there then Reconcile.Same else if here == before then Reconcile.TakeRemote
           else if there == before then Reconcile.TakeLocal else Reconcile.Conflicting
  {
    MemberIsValue(cand.local, k);
    MemberIsValue(cand.remote, k);
    BaseIsValue(conn, cand, k);
    hide SideOf, BaseOf, Reconcile.Member, ValueOn, ValueBefore;
  }

  lemma Sides(conn: Connection, cand: Candidate)
    requires Paired(cand) && !Rebound(conn, cand)
    ensures !SideOf(cand.local).Deleted? && !SideOf(cand.remote).Deleted? && !BaseOf(conn, cand).Deleted?
    ensures !BaseOf(conn, cand).Unseen? ==> SideOf(cand.local).Seen? && SideOf(cand.remote).Seen?
    ensures Rebound(conn, cand) <==> BoundElsewhere(conn, cand)
  {
  }

  lemma DecidedByValues(conn: Connection, cand: Candidate, k: string)
    requires Paired(cand) && !Rebound(conn, cand)
    ensures var d := DecisionOn(conn, cand);
      var before, here, there := ValueBefore(conn, cand.kind, cand.id, k), ValueOn(cand.local, k), ValueOn(cand.remote, k);
      && !d.recordClash
      && (k in d.clashes <==> MovedApart(conn, cand, k))
      && (k in d.remote <==> here != there && here != before && there == before)
      && (k in d.remote ==> d.remote[k] == if here.Missing? then None else Some(here))
  {
    var base, local, remote := BaseOf(conn, cand), SideOf(cand.local), SideOf(cand.remote);
    JudgedByValues(conn, cand, k);
    MemberIsValue(cand.local, k);
    MemberIsValue(cand.remote, k);
    Sides(conn, cand);
    hide BaseOf, SideOf, ValueOn, ValueBefore, Rebound;
    if k !in Reconcile.AllProperties(base, local, remote) {
      assert Reconcile.Judge(base, local, remote, k) == Reconcile.Same;
    }
  }

  lemma NoClash(conn: Connection, cand: Candidate)
    requires Paired(cand) && !Rebound(conn, cand)
    ensures DecisionOn(conn, cand).HasConflict() <==> exists k :: MovedApart(conn, cand, k)
  {
    hide DecisionOn, MovedApart;
    var d := DecisionOn(conn, cand);
    DecidedByValues(conn, cand, "");
    forall k ensures k in d.clashes <==> MovedApart(conn, cand, k) {
      DecidedByValues(conn, cand, k);
    }
    if d.clashes != map[] {
      assert d.clashes.Keys != {};
      var k :| k in d.clashes;
    }
  }

  lemma DesiredByValues(conn: Connection, cand: Candidate, k: string)
    requires Paired(cand) && !Rebound(conn, cand) && !MovedApart(conn, cand, k)
    ensures MergedAt(conn, ChangeFrom(cand, DecisionOn(conn, cand).remote), k)
  {
    DecidedByValues(conn, cand, k);
    hide DecisionOn, Rebound;
  }

  /** A candidate becomes a conflict exactly when its identity was lost or both
      sides moved a value apart; otherwise a change that merges its sides. */
  lemma AddMerges(conn: Connection, p: Proposal, cand: Candidate)
    requires Paired(cand)
    ensures var r := Added(conn, p, cand);
      if Contested(conn, cand)
      then
        && |r.conflicts| == |p.conflicts| + 1 && r == p.(conflicts := p.conflicts + [r.conflicts[|p.conflicts|]])
        && Explains(conn, cand, r.conflicts[|p.conflicts|])
      else
        && |r.changes| == |p.changes| + 1 && r == p.(changes := p.changes + [r.changes[|p.changes|]])
        && ProposedFor(conn, cand, r.changes[|p.changes|])
  {
    hide DecisionOn, MovedApart, MergedAt;
    if !Rebound(conn, cand) {
      Sides(conn, cand);
      NoClash(conn, cand);
      var d := DecisionOn(conn, cand);
      DecidedByValues(conn, cand, "");
      forall k ensures k in d.clashes <==> MovedApart(conn, cand, k) {
        DecidedByValues(conn, cand, k);
      }
      if !d.HasConflict() {
        forall k ensures MergedAt(conn, ChangeFrom(cand, d.remote), k) {
          DesiredByValues(conn, cand, k);
        }
        hide ChangeFrom;
      }
    }
  }

  lemma {:induction false} AllSorted(conn: Connection, dataSource: NotionId, cands: seq<Candidate>)
    requires forall i :: 0 <= i < |cands| ==> Paired(cands[i])
    ensures var p := AddedAll(conn, Proposal(dataSource, [], []), cands);
      p.dataSource == dataSource && Sorted(conn, cands, p.changes, p.conflicts)
    decreases |cands|
  {
    hide Added, Contested, Explains, ProposedFor, Paired;
    if cands != [] {
      var n := |cands| - 1;
      AllSorted(conn, dataSource, cands[..n]);
      var before, p := AddedAll(conn, Proposal(dataSource, [], []), cands[..n]), AddedAll(conn, Proposal(dataSource, [], []), cands);
      AddMerges(conn, before, cands[n]);
      if Contested(conn, cands[n]) {
        assert p.conflicts[..|p.conflicts| - 1] == before.conflicts;
      } else {
        assert p.changes[..|p.changes| - 1] == before.changes;
      }
    }
  }

  // ----- The candidates are paired -----

  lemma {:induction false} FieldsPaired(w: World, fields: seq<Field>)
    requires FieldPass(w, fields).Ok?
    ensures forall i :: 0 <= i < |FieldPass(w, fields).value| ==> Paired(FieldPass(w, fields).value[i])
  {
    if fields != [] {
      FieldsPaired(w, fields[..|fields| - 1]);
    }
  }

  lemma OneViewPaired(w: World, conn: Connection, c: Config, v: ViewBinding)
    ensures ViewCandidate(w, conn, c, v).Ok? ==> Paired(ViewCandidate(w, conn, c, v).value)
  {
  }

  lemma {:induction false} ViewsPaired(w: World, conn: Connection, c: Config, views: seq<ViewBinding>)
    requires ViewPass(w, conn, c, views).Ok?
    ensures forall i :: 0 <= i < |ViewPass(w, conn, c, views).value| ==> Paired(ViewPass(w, conn, c, views).value[i])
  {
    hide ViewCandidate;
    if views != [] {
      ViewsPaired(w, conn, c, views[..|views| - 1]);
      OneViewPaired(w, conn, c, views[|views| - 1]);
    }
  }

  lemma OneRowPaired(w: World, conn: Connection, c: Config, s: Iri)
    ensures RowCandidate(w, conn, c, s).Ok? ==> Paired(RowCandidate(w, conn, c, s).value)
  {
    hide ReadRow;
  }

  lemma {:induction false} RowsPaired(w: World, conn: Connection, c: Config, rows: seq<Iri>)
    requires RowPass(w, conn, c, rows).Ok?
    ensures var unsynced := RowPass(w, conn, c, rows).value.unsynced;
      forall i :: 0 <= i < |unsynced| ==> Paired(unsynced[i])
  {
    hide RowCandidate, RowIdentity;
    if rows != [] {
      RowsPaired(w, conn, c, rows[..|rows| - 1]);
      OneRowPaired(w, conn, c, rows[|rows| - 1]);
    }
  }

  lemma OnePagePaired(w: World, conn: Connection, c: Config, id: NotionId, subject: Option<Iri>)
    ensures PageCandidate(w, conn, c, id, subject).Ok? ==> Paired(PageCandidate(w, conn, c, id, subject).value)
  {
    hide ReadRow, ReadRemote;
  }

  lemma {:induction false} PagesPaired(w: World, conn: Connection, c: Config, byId: map<NotionId, Iri>, pages: seq<NotionId>)
    requires PagePass(w, conn, c, byId, pages).Ok?
    ensures var cands := PagePass(w, conn, c, byId, pages).value;
      forall i :: 0 <= i < |cands| ==> Paired(cands[i])
  {
    hide PageCandidate;
    if pages != [] {
      PagesPaired(w, conn, c, byId, pages[..|pages| - 1]);
      OnePagePaired(w, conn, c, pages[|pages| - 1], SubjectOf(byId, pages[|pages| - 1]));
    }
  }

  // ----- Which candidates there are -----

  /** The row names no page yet. */
  predicate NamesNone(w: World, c: Config, s: Iri) {
    var id := Get(Read(w, s), c.identity);
    id.Missing? || id.Null? || id == Id("")
  }

  predicate NamesPage(w: World, c: Config, s: Iri, x: NotionId) {
    Get(Read(w, s), c.identity) == Id(x) && x != ""
  }

  /** The candidate of a page, beside the row that names it, as both sides show it. */
  ghost predicate OfPage(w: World, conn: Connection, c: Config, rows: seq<Iri>, x: NotionId, cand: Candidate) {
    && cand.kind == PageChange && cand.id == Some(x) && cand.remote.Some? && ReadRemote(w, c, PageChange, Some(x)) == Ok(cand.remote.value)
    && (cand.subject.None? ==> forall s :: s in rows ==> !NamesPage(w, c, s, x))
    && (cand.subject.Some? ==>
          && cand.subject.value in rows && NamesPage(w, c, cand.subject.value, x)
          && cand.local.Some? && ReadRow(w, conn, c, cand.subject.value) == Ok(cand.local.value))
  }

  /** The candidate of a row that names no page. */
  ghost predicate OfRow(w: World, conn: Connection, c: Config, s: Iri, cand: Candidate) {
    && NamesNone(w, c, s)
    && cand.kind == PageChange && cand.id == None && cand.subject == Some(s) && cand.remote == None
    && cand.local.Some? && ReadRow(w, conn, c, s) == Ok(cand.local.value)
  }

  ghost predicate OfField(w: World, f: Field, cand: Candidate) {
    && f.id in w.schema.properties
    && cand == Candidate(SchemaChange, Some(f.id), Some(f.property), Some(map["name" := Get(Read(w, f.property), Name)]),
                         Some(map["name" := Text(w.schema.properties[f.id].name)]))
  }

  ghost predicate OfView(w: World, conn: Connection, c: Config, v: ViewBinding, cand: Candidate) {
    && cand.kind == ViewChange && cand.id == Some(v.id) && cand.subject == Some(v.subject)
    && cand.remote.Some? && ReadRemote(w, c, ViewChange, Some(v.id)) == Ok(cand.remote.value)
    && ReadLocal(w, conn, c, Probe(ViewChange, Some(v.id), Some(v.subject)), Some(v.subject)) == Ok(cand.local)
  }

  lemma IdentityNames(w: World, c: Config, s: Iri)
    ensures RowIdentity(w, c, s) == Ok(None) <==> NamesNone(w, c, s)
    ensures forall x :: RowIdentity(w, c, s) == Ok(Some(x)) <==> NamesPage(w, c, s, x)
  {
  }

  /** The preview considers exactly: every mapped field and every bound view, every
      listed row that names no page, and every listed page with the row that names it. */
  lemma CandidatesExactly(w: World, conn: Connection, c: Config, listing: Listing)
    requires Candidates(w, conn, c, listing).Ok? && forall i, j :: 0 <= i < j < |listing.rows| ==> listing.rows[i] != listing.rows[j]
    ensures exists f, v, n, g :: Candidates(w, conn, c, listing).value == f + v + n + g && Listed(w, conn, c, listing, f, v, n, g)
  {
    hide FieldPass, ViewPass, RowPass, PagePass, Listed;
    var r := RowPass(w, conn, c, listing.rows).value;
    var f, v, g := FieldPass(w, c.fields).value, ViewPass(w, conn, c, c.views).value, PagePass(w, conn, c, r.byId, listing.pages).value;
    PassesListed(w, conn, c, listing, r, f, v, g);
    assert Candidates(w, conn, c, listing).value == f + v + r.unsynced + g;
  }

  ghost predicate Listed(w: World, conn: Connection, c: Config, listing: Listing, f: seq<Candidate>, v: seq<Candidate>, n: seq<Candidate>, g: seq<Candidate>) {
    && |f| == |c.fields| && (forall i :: 0 <= i < |f| ==> OfField(w, c.fields[i], f[i]))
    && |v| == |c.views| && (forall i :: 0 <= i < |v| ==> OfView(w, conn, c, c.views[i], v[i]))
    && NewRowsListed(w, conn, c, listing.rows, n)
    && |g| == |listing.pages| && (forall i :: 0 <= i < |g| ==> OfPage(w, conn, c, listing.rows, listing.pages[i], g[i]))
  }

  /** Each row without a page is one candidate. */
  ghost predicate NewRowsListed(w: World, conn: Connection, c: Config, rows: seq<Iri>, n: seq<Candidate>) {
    && (forall i :: 0 <= i < |n| ==> n[i].subject.Some? && n[i].subject.value in rows && OfRow(w, conn, c, n[i].subject.value, n[i]))
    && (forall i, j :: 0 <= i < j < |n| ==> n[i].subject != n[j].subject)
    && forall s :: s in rows && NamesNone(w, c, s) ==> exists i :: 0 <= i < |n| && n[i].subject == Some(s)
  }

  lemma PassesListed(w: World, conn: Connection, c: Config, listing: Listing, r: Rows, f: seq<Candidate>, v: seq<Candidate>, g: seq<Candidate>)
    requires FieldPass(w, c.fields) == Ok(f) && ViewPass(w, conn, c, c.views) == Ok(v)
    requires RowPass(w, conn, c, listing.rows) == Ok(r) && PagePass(w, conn, c, r.byId, listing.pages) == Ok(g)
    requires forall i, j :: 0 <= i < j < |listing.rows| ==> listing.rows[i] != listing.rows[j]
    ensures Listed(w, conn, c, listing, f, v, r.unsynced, g)
  {
    FieldPassAt(w, c.fields);
    ViewPassAt(w, conn, c, c.views);
    PagePassAt(w, conn, c, r.byId, listing.pages);
    RowPassSplits(w, conn, c, listing.rows);
    hide FieldPass, ViewPass, RowPass, PagePass, FieldCandidate, ViewCandidate, PageCandidate, OfField, OfView, OfPage, Indexed, Waiting, NewRowsListed;
    NewRowsAreListed(w, conn, c, listing.rows, r.unsynced);
    forall i | 0 <= i < |f| ensures OfField(w, c.fields[i], f[i]) {
      FieldOf(w, c.fields[i], f[i]);
    }
    forall i | 0 <= i < |v| ensures OfView(w, conn, c, c.views[i], v[i]) {
      ViewOf(w, conn, c, c.views[i], v[i]);
    }
    forall i | 0 <= i < |g| ensures OfPage(w, conn, c, listing.rows, listing.pages[i], g[i]) {
      PageOf(w, conn, c, listing.rows, r.byId, listing.pages[i], g[i]);
    }
  }

  lemma NewRowsAreListed(w: World, conn: Connection, c: Config, rows: seq<Iri>, n: seq<Candidate>)
    requires Waiting(w, conn, c, rows, n)
    ensures NewRowsListed(w, conn, c, rows, n)
  {
    hide RowCandidate, RowIdentity, NamesNone, OfRow;
    forall s ensures RowIdentity(w, c, s) == Ok(None) <==> NamesNone(w, c, s) {
      IdentityNames(w, c, s);
    }
    forall i | 0 <= i < |n| ensures n[i].subject.Some? && n[i].subject.value in rows && OfRow(w, conn, c, n[i].subject.value, n[i]) {
      assert UnsyncedFrom(w, conn, c, rows, n[i]);
      var s :| s in rows && RowCandidate(w, conn, c, s) == Ok(n[i]) && RowIdentity(w, c, s) == Ok(None);
      RowOf(w, conn, c, s, n[i]);
    }
    forall s | s in rows && NamesNone(w, c, s) ensures exists i :: 0 <= i < |n| && n[i].subject == Some(s) {
      assert Unsynced(n, s);
    }
  }

  lemma FieldOf(w: World, f: Field, cand: Candidate)
    requires FieldCandidate(w, f) == Ok(cand)
    ensures OfField(w, f, cand)
  {
  }

  lemma ViewOf(w: World, conn: Connection, c: Config, v: ViewBinding, cand: Candidate)
    requires ViewCandidate(w, conn, c, v) == Ok(cand)
    ensures OfView(w, conn, c, v, cand)
  {
    hide ReadLocal, ReadRemote;
  }

  lemma RowOf(w: World, conn: Connection, c: Config, s: Iri, cand: Candidate)
    requires RowCandidate(w, conn, c, s) == Ok(cand) && RowIdentity(w, c, s) == Ok(None)
    ensures OfRow(w, conn, c, s, cand) && cand.subject == Some(s)
  {
    hide ReadRow;
    IdentityNames(w, c, s);
  }

  lemma PageOf(w: World, conn: Connection, c: Config, rows: seq<Iri>, byId: map<NotionId, Iri>, x: NotionId, cand: Candidate)
    requires Indexed(w, c, rows, byId) && PageCandidate(w, conn, c, x, SubjectOf(byId, x)) == Ok(cand)
    ensures OfPage(w, conn, c, rows, x, cand)
  {
    hide ReadRow, ReadRemote, RowIdentity, NamesPage;
    forall s ensures RowIdentity(w, c, s) == Ok(Some(x)) <==> NamesPage(w, c, s, x) {
      IdentityNames(w, c, s);
    }
  }

  // ----- The whole preview -----

  /** A preview, whatever the stores hold: every contested candidate is a conflict
      that names what moved apart, and every other one a change that desires each
      value changed on one side only, and leaves the rest. After those conflicts
      come the lost rows and pages. */
  lemma PreviewMerges(w: World, conn: Connection, c: Config, listing: Listing)
    requires PreviewOf(w, conn, c, listing).Ok?
    ensures Candidates(w, conn, c, listing).Ok?
    ensures var p, lost := PreviewOf(w, conn, c, listing).value, LostRows(w, c, listing.rows, listing.pages) + LostPages(listing.keys, listing.pages);
      && |lost| <= |p.conflicts| && p.conflicts[|p.conflicts| - |lost|..] == lost
      && Sorted(conn, Candidates(w, conn, c, listing).value, p.changes, p.conflicts[..|p.conflicts| - |lost|])
  {
    hide CheckSchema, FieldPass, ViewPass, RowPass, PagePass, AddedAll, LostRows, LostPages, Paired, Sorted;
    FieldsPaired(w, c.fields);
    ViewsPaired(w, conn, c, c.views);
    RowsPaired(w, conn, c, listing.rows);
    PagesPaired(w, conn, c, RowPass(w, conn, c, listing.rows).value.byId, listing.pages);
    AllSorted(conn, c.dataSource, Candidates(w, conn, c, listing).value);
    var all := AddedAll(conn, Proposal(c.dataSource, [], []), Candidates(w, conn, c, listing).value);
    var rows, pages := LostRows(w, c, listing.rows, listing.pages), LostPages(listing.keys, listing.pages);
    assert PreviewOf(w, conn, c, listing).value.conflicts == all.conflicts + (rows + pages);
  }

  /** So every change of a preview desires every one-sided edit of its object. */
  lemma ChangesMerge(w: World, conn: Connection, c: Config, listing: Listing, i: nat, k: string)
    requires PreviewOf(w, conn, c, listing).Ok? && i < |PreviewOf(w, conn, c, listing).value.changes|
    ensures MergedAt(conn, PreviewOf(w, conn, c, listing).value.changes[i], k)
  {
    hide PreviewOf, Candidates, LostRows, LostPages, Sorted;
    PreviewMerges(w, conn, c, listing);
    var p, lost := PreviewOf(w, conn, c, listing).value, LostRows(w, c, listing.rows, listing.pages) + LostPages(listing.keys, listing.pages);
    SortedMerges(conn, Candidates(w, conn, c, listing).value, p.changes, p.conflicts[..|p.conflicts| - |lost|], i, k);
  }

  lemma {:induction false} SortedMerges(conn: Connection, cands: seq<Candidate>, changes: seq<Change>, conflicts: seq<Conflict>, i: nat, k: string)
    requires Sorted(conn, cands, changes, conflicts) && i < |changes|
    ensures MergedAt(conn, changes[i], k)
    decreases |cands|
  {
    hide Contested, Explains, MergedAt;
    var n := |cands| - 1;
    if Contested(conn, cands[n]) {
      SortedMerges(conn, cands[..n], changes, conflicts[..|conflicts| - 1], i, k);
    } else if i < |changes| - 1 {
      SortedMerges(conn, cands[..n], changes[..|changes| - 1], conflicts, i, k);
    }
  }

  /** What both sides showed when the change was previewed. */
  ghost predicate ShownAtPreview(w: World, conn: Connection, c: Config, ch: Change) {
    && ReadLocal(w, conn, c, ch, ch.subject) == Ok(ch.local)
    && (ch.id.Some? <==> ch.remote.Some?)
    && (ch.id.Some? ==> ReadRemote(w, c, ch.kind, ch.id) == Ok(ch.remote.value))
  }

  lemma PendingShows(w: World, conn: Connection, c: Config, ch: Change)
    requires Settable(c, ch) && Pending(w, conn, c, ch)
    ensures ShownAtPreview(w, conn, c, ch)
  {
    hide SettableView, Canonical, OwnsIdentity, CheckSchema, ReadLocal, ReadRemote;
  }

  lemma ReadyShows(w: World, conn: Connection, c: Config, p: Proposal, i: nat)
    requires Ready(w, conn, c, p) && i < |p.changes|
    ensures ShownAtPreview(w, conn, c, p.changes[i])
  {
    hide Settable, Pending, GoodConfig, Placed, Covered, Hosted, CheckSchema, KnownPages, ShownAtPreview;
    assert Settable(c, p.changes[i]) && Pending(w, conn, c, p.changes[i]);
    PendingShows(w, conn, c, p.changes[i]);
  }

  /** What a sync without outside edits amounts to: when its run stops, both sides
      show one value for every member, and that value is the edited one wherever
      one side alone had been edited since the last sync. */
  lemma EditsReachBothSides(w: World, conn: Connection, c: Config, listing: Listing, p: Proposal, sessions: seq<Session>, i: nat, k: string)
    requires Approvable(w, conn, c, listing, p) && i < |p.changes|
    requires QuietRun(c, p, sessions) && sessions[0] == Opening(w, conn) && Stuck(c, p, Last(sessions))
    ensures var ch, end := p.changes[i], Last(sessions);
      && ShownAtPreview(w, conn, c, ch)
      && i < |end.cursor.records|
      && var here, there := ReadLocal(end.w, end.conn, c, ch, end.cursor.records[i].local), ReadRemote(end.w, c, ch.kind, end.cursor.records[i].remote);
         && here.Ok? && there.Ok?
         && ValueOn(here.value, k) == Get(there.value, k)
         && (ValueOn(ch.remote, k) == ValueBefore(conn, ch.kind, ch.id, k) ==> Get(there.value, k) == ValueOn(ch.local, k))
         && (ValueOn(ch.local, k) == ValueBefore(conn, ch.kind, ch.id, k) ==> Get(there.value, k) == ValueOn(ch.remote, k))
  {
    assert sessions != [] && PreviewOf(w, conn, c, listing) == Ok(p);
    hide Approvable, Ready, QuietRun, Stuck, PreviewOf, ReadLocal, ReadRemote, ShownAtPreview, Rested, CoversSetup, Invoke, ValueBefore;
    ApprovableParts(w, conn, c, listing, p);
    ReadyShows(w, conn, c, p, i);
    ChangesMerge(w, conn, c, listing, i, k);
    QuietRunConverges(w, conn, c, p, sessions);
    var end := Last(sessions);
    assert Finished(end.w, end.conn, c, p.changes[i], end.cursor.records[i].remote, end.cursor.records[i].local);
  }
}
