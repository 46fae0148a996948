/** A conflict-free preview of tidy stores is a proposal whose run is certain. */
module NotionReady {
  import opened Wrappers
  import opened TextChunks
  import opened NotionModel
  import opened NotionRows
  import opened NotionViews
  import opened NotionSync
  import opened NotionSafety
  import opened NotionHost
  import opened NotionFrames
  import opened NotionConvergence
  import opened NotionQuiet
  import opened NotionRuns
  import opened NotionPreview
  import Reconcile

  // ----- What a caller can check before approving -----

  /** The listing is what host, provider and connection hold: each row and page once. */
  ghost predicate Lists(w: World, conn: Connection, c: Config, listing: Listing) {
    && (forall i, j :: 0 <= i < j < |listing.rows| ==> listing.rows[i] != listing.rows[j])
    && (forall s :: s in listing.rows <==> s in w.resources && InTable(w.resources[s], c) && HasClass(w.resources[s], c))
    && (forall x :: x in listing.pages <==> x in w.pages)
    && (forall key :: key in listing.keys <==> key in conn.records)
  }

  /** Views and property resources are distinct existing resources, apart from
      the table and the tags; each bound view still has the kind it is bound as. */
  ghost predicate TidyResources(w: World, c: Config) {
    && (forall i, j :: 0 <= i < j < |c.views| ==> c.views[i].id != c.views[j].id && c.views[i].subject != c.views[j].subject)
    && (forall i, j :: 0 <= i < |c.fields| && 0 <= j < |c.views| ==> c.fields[i].property != c.views[j].subject)
    && (forall i :: 0 <= i < |c.fields| ==> Standalone(w, c, c.fields[i].property))
    && (forall i :: 0 <= i < |c.views| ==> Standalone(w, c, c.views[i].subject))
    && (forall i :: 0 <= i < |c.views| && c.views[i].id in w.views ==> w.views[c.views[i].id].kind == c.views[i].kind)
    && (forall s :: s in w.resources && InTable(w.resources[s], c) ==> !IsTag(c, s))
  }

  ghost predicate Standalone(w: World, c: Config, s: Iri) {
    s in w.resources && !InTable(w.resources[s], c) && !IsTag(c, s)
  }

  /** Every resource in the table is a row; what it says about its page is consistent. */
  ghost predicate TidyTable(w: World, c: Config) {
    forall s :: s in w.resources && InTable(w.resources[s], c) ==> TidyRow(w.resources[s], c)
  }

  ghost predicate TidyRow(row: Row, c: Config) {
    && HasClass(row, c)
    && (Get(row, c.identity).Missing? || (Get(row, c.identity).Id? && row[c.identity] != Id("")))
    && (Get(row, LocalId).Missing? || (Get(row, c.identity).Id? && row[LocalId] == SourceId(c, row[c.identity].id)))
  }

  /** A text the provider does not already hold fits Notion's hundred parts. */
  predicate TextFits(ch: Change, id: NotionId) {
    var text := Get(ch.desired, id);
    text.Text? && !(ch.remote.Some? && Get(ch.remote.value, id) == text) ==> |Chunks(text.text)| <= MAX_PARTS
  }

  /** The change can be written: texts fit, names are texts, and a regrouping is one the board can express. */
  ghost predicate Writable(c: Config, ch: Change) {
    match ch.kind
    case PageChange =>
      forall i :: 0 <= i < |c.fields| && IsText(c.fields[i].kind) ==> TextFits(ch, c.fields[i].id)
    case SchemaChange => Get(ch.desired, "name").Text?
    case ViewChange =>
      && Get(ch.desired, "name").Text?
      && ch.remote.Some?
      && Get(ch.desired, "group") != Id("")
      && (Get(ch.remote.value, "group") == Get(ch.desired, "group") ||
            (Get(ch.desired, "group").Id? && Groupable(Get(ch.desired, "group").id, c) && Get(ch.desired, "kind") == Id("board")))
  }

  // ----- From candidates to changes -----

  /** The candidate shows what both stores hold. */
  ghost predicate Faithful(w: World, conn: Connection, c: Config, cand: Candidate) {
    && ReadLocal(w, conn, c, Probe(cand.kind, cand.id, cand.subject), cand.subject) == Ok(cand.local)
    && (cand.id.Some? <==> cand.remote.Some?)
    && (cand.id.Some? ==> ReadRemote(w, c, cand.kind, cand.id) == Ok(cand.remote.value))
    && (cand.id.None? ==> cand.kind == PageChange && cand.subject.Some?)
    && (cand.subject.None? ==> cand.kind == PageChange)
    && (cand.subject.Some? <==> cand.local.Some?)
  }

  ghost predicate Clean(conn: Connection, cand: Candidate) {
    !Rebound(conn, cand) && !DecisionOn(conn, cand).HasConflict()
  }

  ghost function ChangeOf(conn: Connection, cand: Candidate): Change {
    ChangeFrom(cand, DecisionOn(conn, cand).remote)
  }

  lemma {:induction false} AddedAllClean(conn: Connection, p: Proposal, cands: seq<Candidate>)
    requires AddedAll(conn, p, cands).conflicts == []
    ensures p.conflicts == []
    ensures AddedAll(conn, p, cands).dataSource == p.dataSource
    ensures forall i :: 0 <= i < |cands| ==> Clean(conn, cands[i])
    ensures var changes := AddedAll(conn, p, cands).changes;
      |changes| == |p.changes| + |cands| && forall i :: 0 <= i < |cands| ==> changes[|p.changes| + i] == ChangeOf(conn, cands[i])
  {
    hide DecisionOn, Rebound, ChangeFrom;
    if cands != [] {
      var n := |cands| - 1;
      AddedAllClean(conn, p, cands[..n]);
    }
  }

  /** Each member of the desired projection is one side's, and neither side's missing members appear. */
  lemma DesiredMix(conn: Connection, cand: Candidate, k: string)
    requires Clean(conn, cand) && cand.local.Some? && cand.remote.Some?
    ensures var desired := ChangeOf(conn, cand).desired;
      && (k in desired ==> k in cand.local.value || k in cand.remote.value)
      && (k in cand.remote.value ==> k in desired)
      && (Get(desired, k) == Get(cand.local.value, k) || Get(desired, k) == Get(cand.remote.value, k))
  {
  }

  lemma DesiredRemoteOnly(conn: Connection, cand: Candidate)
    requires Clean(conn, cand) && cand.local.None? && cand.subject.None? && cand.remote.Some?
    ensures ChangeOf(conn, cand).desired == cand.remote.value
  {
    var d := DecisionOn(conn, cand);
    assert d.remote == map[];
  }

  lemma DesiredLocalOnly(conn: Connection, cand: Candidate)
    requires Clean(conn, cand) && cand.local.Some? && cand.remote.None? && cand.id.None?
    ensures ChangeOf(conn, cand).desired == cand.local.value
  {
    var d := DecisionOn(conn, cand);
    forall k | k in d.remote
      ensures k in cand.local.value && (if d.remote[k].Some? then d.remote[k].value else Missing) == cand.local.value[k]
    {
    }
  }

  lemma ReadLocalProbe(w: World, conn: Connection, c: Config, a: Change, b: Change, subject: Option<Iri>)
    requires a.kind == b.kind && a.id == b.id
    ensures ReadLocal(w, conn, c, a, subject) == ReadLocal(w, conn, c, b, subject)
  {
  }

  lemma PageLocalCanonical(w: World, conn: Connection, c: Config, s: Iri)
    requires GoodConfig(c) && ReadRow(w, conn, c, s).Ok?
    ensures Canonical(ReadRow(w, conn, c, s).value, c)
    ensures forall i :: 0 <= i < |c.fields| ==> Valid(c.fields[i], ReadRow(w, conn, c, s).value[c.fields[i].id])
  {
    var identity := Get(Read(w, s), c.identity);
    RowProjectionCanonical(Read(w, s), c, if identity.Id? then BaselineOf(conn, RecordKey(PageChange, identity.id)) else None);
  }

  ghost predicate GoodPageProjection(c: Config, p: Projection) {
    Canonical(p, c) && forall i :: 0 <= i < |c.fields| ==> Valid(c.fields[i], p[c.fields[i].id])
  }

  lemma PageDesired(w: World, conn: Connection, c: Config, cand: Candidate)
    requires GoodConfig(c) && cand.kind == PageChange
    requires Faithful(w, conn, c, cand) && Clean(conn, cand)
    ensures GoodPageProjection(c, ChangeOf(conn, cand).desired)
  {
    if cand.local.Some? {
      PageLocalCanonical(w, conn, c, cand.subject.value);
    }
    if cand.remote.Some? {
      PageProjectionCanonical(w.pages[cand.id.value], c);
    }
    if cand.local.None? {
      DesiredRemoteOnly(conn, cand);
    } else if cand.remote.None? {
      DesiredLocalOnly(conn, cand);
    } else {
      MixIsGood(conn, c, cand);
    }
  }

  lemma MixIsGood(conn: Connection, c: Config, cand: Candidate)
    requires Clean(conn, cand) && cand.local.Some? && cand.remote.Some?
    requires GoodPageProjection(c, cand.local.value) && GoodPageProjection(c, cand.remote.value)
    ensures GoodPageProjection(c, ChangeOf(conn, cand).desired)
  {
    var desired := ChangeOf(conn, cand).desired;
    forall k ensures k in desired <==> k in cand.remote.value {
      DesiredMix(conn, cand, k);
    }
    assert desired.Keys == cand.remote.value.Keys;
    forall i | 0 <= i < |c.fields|
      ensures Settled(c.fields[i], desired[c.fields[i].id]) == desired[c.fields[i].id] && Valid(c.fields[i], desired[c.fields[i].id])
    {
      hide ChangeOf;
      DesiredMix(conn, cand, c.fields[i].id);
    }
  }

  lemma PageSettable(w: World, conn: Connection, c: Config, cand: Candidate)
    requires GoodConfig(c) && cand.kind == PageChange
    requires Faithful(w, conn, c, cand) && Clean(conn, cand) && Writable(c, ChangeOf(conn, cand))
    ensures Settable(c, ChangeOf(conn, cand))
  {
    hide ReadLocal, ReadRemote, DecisionOn, PagePatchOf;
    var ch := ChangeOf(conn, cand);
    PageDesired(w, conn, c, cand);
    PagePatchExists(ch.desired, ch.remote, c);
    forall i | 0 <= i < |c.fields| && IsText(c.fields[i].kind) ensures TextFits(ch, c.fields[i].id) {
    }
  }

  lemma SchemaSides(w: World, conn: Connection, c: Config, cand: Candidate)
    requires cand.kind == SchemaChange && Faithful(w, conn, c, cand) && Clean(conn, cand)
    ensures cand.id.Some? && cand.subject.Some? && cand.local.Some? && cand.remote.Some?
    ensures cand.local.value.Keys == {"name"} && cand.remote.value.Keys == {"name"}
  {
    hide Clean;
  }

  lemma SchemaDesired(conn: Connection, cand: Candidate)
    requires Clean(conn, cand) && cand.local.Some? && cand.remote.Some?
    requires cand.local.value.Keys == {"name"} && cand.remote.value.Keys == {"name"}
    ensures ChangeOf(conn, cand).desired == map["name" := Get(ChangeOf(conn, cand).desired, "name")]
  {
    hide Clean, ChangeOf;
    var desired := ChangeOf(conn, cand).desired;
    forall k ensures k in desired <==> k == "name" {
      DesiredMix(conn, cand, k);
      assert k in cand.local.value <==> k in {"name"};
      assert k in cand.remote.value <==> k in {"name"};
    }
  }

  lemma SchemaSettable(w: World, conn: Connection, c: Config, cand: Candidate)
    requires cand.kind == SchemaChange
    requires Faithful(w, conn, c, cand) && Clean(conn, cand) && Writable(c, ChangeOf(conn, cand))
    ensures Settable(c, ChangeOf(conn, cand))
  {
    SchemaSides(w, conn, c, cand);
    hide Faithful, ReadLocal, ReadRemote, Clean, DecisionOn;
    SchemaDesired(conn, cand);
  }

  /** What the projection of either side of a view is like. */
  ghost predicate GoodViewProjection(c: Config, p: Projection) {
    && IsViewProjection(p)
    && p["columns"].ids != [] && AllMapped(p["columns"].ids, c)
  }

  lemma {:induction false} ColumnIdsMapped(c: Config, properties: seq<Iri>)
    requires ColumnIds(c.fields, properties).Ok?
    ensures AllMapped(ColumnIds(c.fields, properties).value, c)
  {
    if properties != [] {
      ColumnIdsMapped(c, properties[1..]);
      var f := FieldByProperty(c.fields, properties[0]).value;
      FieldByPropertyIn(c.fields, properties[0]);
      FieldByIdFound(c.fields, f.id);
    }
  }

  lemma {:induction false} FieldByPropertyIn(fields: seq<Field>, property: Iri)
    ensures FieldByProperty(fields, property).Some? ==> FieldByProperty(fields, property).value in fields
  {
    if fields != [] && fields[0].property != property {
      FieldByPropertyIn(fields[1..], property);
    }
  }

  lemma LocalViewGood(w: World, conn: Connection, c: Config, id: Option<NotionId>, s: Iri)
    requires ReadLocal(w, conn, c, Probe(ViewChange, id, Some(s)), Some(s)).Ok?
    ensures var p := ReadLocal(w, conn, c, Probe(ViewChange, id, Some(s)), Some(s)).value;
      && p.Some? && GoodViewProjection(c, p.value)
      && BindingOf(c.views, id).Some? && p.value["kind"] == Id(BindingOf(c.views, id).value.kind)
  {
    var row := Read(w, s);
    var properties := if Get(row, Columns).Links? then row[Columns].links else [];
    ColumnIdsMapped(c, properties);
    var group := LocalGroup(row, c).value;
    ViewProjectionParts(Get(row, Name), ColumnIds(c.fields, properties).value, group, BindingOf(c.views, id).value.kind);
  }

  lemma RemoteViewGood(view: View, c: Config)
    requires RemoteViewProjection(view, c).Ok?
    ensures GoodViewProjection(c, RemoteViewProjection(view, c).value)
    ensures var group := RemoteViewProjection(view, c).value["group"]; group.Id? && group != Id("") ==> Groupable(group.id, c)
  {
    var cfg := Configuration(view);
    ViewProjectionParts(Text(if view.name.Some? then view.name.value else []), ColumnsOf(cfg, c), GroupOf(cfg), view.kind);
  }

  lemma {:induction false} BindingHasId(views: seq<ViewBinding>, id: Option<NotionId>)
    requires BindingOf(views, id).Some?
    ensures Some(BindingOf(views, id).value.id) == id
  {
    if Some(views[0].id) != id {
      BindingHasId(views[1..], id);
    }
  }

  lemma {:induction false} BindingListed(views: seq<ViewBinding>, id: Option<NotionId>)
    requires BindingOf(views, id).Some?
    ensures exists i :: 0 <= i < |views| && views[i] == BindingOf(views, id).value
  {
    if Some(views[0].id) == id {
      assert views[0] == BindingOf(views, id).value;
    } else {
      BindingListed(views[1..], id);
      var i :| 0 <= i < |views[1..]| && views[1..][i] == BindingOf(views[1..], id).value;
      assert views[i + 1] == BindingOf(views, id).value;
    }
  }

  lemma ViewSettable(w: World, conn: Connection, c: Config, cand: Candidate)
    requires GoodConfig(c) && TidyResources(w, c) && cand.kind == ViewChange
    requires Faithful(w, conn, c, cand) && Clean(conn, cand) && Writable(c, ChangeOf(conn, cand))
    ensures Settable(c, ChangeOf(conn, cand))
  {
    LocalViewGood(w, conn, c, cand.id, cand.subject.value);
    RemoteViewGood(w.views[cand.id.value], c);
    BindingListed(c.views, cand.id);
    BindingHasId(c.views, cand.id);
    RemoteKind(w.views[cand.id.value], c);
    ViewMix(conn, c, cand);
  }

  lemma RemoteKind(view: View, c: Config)
    requires RemoteViewProjection(view, c).Ok?
    ensures Get(RemoteViewProjection(view, c).value, "kind") == Id(view.kind)
  {
  }

  lemma ViewMix(conn: Connection, c: Config, cand: Candidate)
    requires Clean(conn, cand) && cand.local.Some? && cand.remote.Some?
    requires GoodViewProjection(c, cand.local.value) && GoodViewProjection(c, cand.remote.value)
    requires Get(cand.remote.value, "kind") == Get(cand.local.value, "kind")
    ensures GoodViewProjection(c, ChangeOf(conn, cand).desired)
    ensures ChangeOf(conn, cand).desired["kind"] == cand.local.value["kind"]
  {
    var desired := ChangeOf(conn, cand).desired;
    forall k ensures k in desired <==> k in cand.remote.value {
      DesiredMix(conn, cand, k);
    }
    assert desired.Keys == cand.remote.value.Keys;
    DesiredMix(conn, cand, "name");
    DesiredMix(conn, cand, "columns");
    DesiredMix(conn, cand, "group");
    DesiredMix(conn, cand, "kind");
  }

  lemma CandidateSettable(w: World, conn: Connection, c: Config, cand: Candidate)
    requires GoodConfig(c) && TidyResources(w, c)
    requires Faithful(w, conn, c, cand) && Clean(conn, cand) && Writable(c, ChangeOf(conn, cand))
    ensures Settable(c, ChangeOf(conn, cand))
  {
    match cand.kind {
      case PageChange => PageSettable(w, conn, c, cand);
      case SchemaChange => SchemaSettable(w, conn, c, cand);
      case ViewChange => ViewSettable(w, conn, c, cand);
    }
  }

  // ----- Writability is necessary -----

  /** Whatever happens between invocations, a change that ends agreed on both
      sides was writable: so a run without outside edits goes through exactly
      when every change is. */
  lemma FinishedWasWritable(c: Config, p: Proposal, visits: seq<Visit>, i: nat)
    requires GoodConfig(c) && i < |p.changes|
    requires i < Held(History(c, p, visits)).index
    requires p.changes[i].kind != PageChange ==> p.changes[i].id.Some?
    ensures Writable(c, p.changes[i])
  {
    hide History, Held, BothAgree, OpenedAt;
    var ch := p.changes[i];
    FinishedChangesAgreed(c, p, visits, i);
    ChangesStartAsPreviewed(c, p, visits, i);
    var record := Held(History(c, p, visits)).records[i];
    var j :| 0 <= j < |visits| && OpenedAt(visits[j], c, ch);
    var k :| 0 <= k < |visits| && BothAgree(visits[k], c, ch, record.remote, record.local);
    OpenedAndAgreed(c, ch, visits[j], visits[k], record.remote, record.local);
  }

  lemma PagePatchFits(c: Config, ch: Change, begun: Visit)
    requires GoodConfig(c) && ch.kind == PageChange && OpenedAt(begun, c, ch)
    ensures Writable(c, ch)
  {
    assert DistinctIds(c.fields);
    hide PagePatchOf, Valid, GoodConfig;
    PagePatchExists(ch.desired, ch.remote, c);
  }

  lemma OpenedAndAgreed(c: Config, ch: Change, begun: Visit, agreed: Visit, id: Option<NotionId>, subject: Option<Iri>)
    requires GoodConfig(c) && (ch.kind != PageChange ==> ch.id.Some?)
    requires OpenedAt(begun, c, ch) && BothAgree(agreed, c, ch, id, subject)
    ensures Writable(c, ch)
  {
    hide PagePatchOf, PageProjection, TextFits, RowProjection;
    match ch.kind {
      case PageChange => PagePatchFits(c, ch, begun);
      case SchemaChange =>
      case ViewChange =>
        RemoteNameIsText(agreed.w.views[id.value], c);
        LocalGroupNonEmpty(agreed.w, agreed.conn, c, ch, subject.value);
        PatchRegroups(begun.w.views[ch.id.value], c, ch);
    }
  }

  lemma RemoteNameIsText(view: View, c: Config)
    requires RemoteViewProjection(view, c).Ok?
    ensures Get(RemoteViewProjection(view, c).value, "name").Text?
  {
  }

  lemma LocalGroupNonEmpty(w: World, conn: Connection, c: Config, ch: Change, s: Iri)
    requires GoodConfig(c) && ch.kind == ViewChange
    requires ReadLocal(w, conn, c, ch, Some(s)) == Ok(Some(ch.desired))
    ensures Get(ch.desired, "group") != Id("")
  {
    var group := Get(Read(w, s), Group);
    if group.Link? {
      FieldByPropertyIn(c.fields, group.link);
    }
  }

  lemma PatchRegroups(view: View, c: Config, ch: Change)
    requires ch.remote.Some? && RemoteViewProjection(view, c) == Ok(ch.remote.value)
    requires RemoteViewPatch(ch.desired, view, c).Ok?
    ensures Get(ch.remote.value, "group") == Get(ch.desired, "group") ||
      (Get(ch.desired, "group").Id? && Groupable(Get(ch.desired, "group").id, c) && Get(ch.desired, "kind") == Id("board"))
  {
  }

  /** In particular a changed text of more than 200,000 units never finishes. */
  lemma OverlongTextNeverSyncs(c: Config, p: Proposal, visits: seq<Visit>, i: nat, f: nat)
    requires GoodConfig(c) && i < |p.changes| && p.changes[i].kind == PageChange
    requires f < |c.fields| && IsText(c.fields[f].kind)
    requires Get(p.changes[i].desired, c.fields[f].id).Text? && |Get(p.changes[i].desired, c.fields[f].id).text| > 200_000
    requires p.changes[i].remote.Some? ==> Get(p.changes[i].remote.value, c.fields[f].id) != Get(p.changes[i].desired, c.fields[f].id)
    ensures Held(History(c, p, visits)).index <= i
  {
    hide History, Held, GoodConfig;
    ChunkLimit(Get(p.changes[i].desired, c.fields[f].id).text);
    assert !TextFits(p.changes[i], c.fields[f].id);
    if i < Held(History(c, p, visits)).index {
      FinishedWasWritable(c, p, visits, i);
    }
  }
}
