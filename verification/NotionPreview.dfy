/** The preview: everything mapped on both sides, reconciled into changes and conflicts. */
module NotionPreview {
  import opened Wrappers
  import opened NotionModel
  import opened NotionRows
  import opened NotionViews
  import opened NotionSync
  import Reconcile

  /** What the preview hands to reconciliation. */
  datatype Candidate = Candidate(kind: Kind, id: Option<NotionId>, subject: Option<Iri>, local: Option<Projection>, remote: Option<Projection>)

  /** The orders in which the host lists the table's rows, the provider its
      pages, and the connection its records. */
  datatype Listing = Listing(rows: seq<Iri>, pages: seq<NotionId>, keys: seq<RecordKey>)

  // ----- Reconciling one candidate -----

  /** Comparison drops members that are `undefined`. */
  function Defined(p: Projection): map<string, Value> {
    map k | k in p && !p[k].Missing? :: p[k]
  }

  function SideOf(p: Option<Projection>): Reconcile.Side<Value> {
    if p.Some? then Reconcile.Seen(Defined(p.value)) else Reconcile.Unseen
  }

  /** The remote projection (or the local one) overlaid with the remote patch. */
  function Overlaid(under: Projection, patch: map<string, Option<Value>>): Projection {
    under + map k | k in patch :: if patch[k].Some? then patch[k].value else Missing
  }

  function Underlay(cand: Candidate): Projection {
    if cand.remote.Some? then cand.remote.value else if cand.local.Some? then cand.local.value else map[]
  }

  function ChangeFrom(cand: Candidate, patch: map<string, Option<Value>>): Change {
    Change(cand.kind, cand.id, cand.subject, cand.local, cand.remote, Overlaid(Underlay(cand), patch))
  }

  function BoundTo(conn: Connection, cand: Candidate): Option<Binding> {
    if cand.id.Some? && cand.id.value != "" && RecordKey(cand.kind, cand.id.value) in conn.records
    then Some(conn.records[RecordKey(cand.kind, cand.id.value)]) else None
  }

  function BaseOf(conn: Connection, cand: Candidate): Reconcile.Side<Value> {
    var bound := BoundTo(conn, cand);
    if bound.Some? then SideOf(bound.value.baseline) else Reconcile.Unseen
  }

  predicate Rebound(conn: Connection, cand: Candidate) {
    BoundTo(conn, cand).Some? && Some(BoundTo(conn, cand).value.local) != cand.subject
  }

  ghost function DecisionOn(conn: Connection, cand: Candidate): Reconcile.Decision<Value> {
    Reconcile.Decide(BaseOf(conn, cand), SideOf(cand.local), SideOf(cand.remote))
  }

  ghost function Added(conn: Connection, p: Proposal, cand: Candidate): Proposal {
    if Rebound(conn, cand) then p.(conflicts := p.conflicts + [Conflict(cand.id, {"Missing or rebound Atomic identity"})])
    else
      var d := DecisionOn(conn, cand);
      if d.HasConflict() then p.(conflicts := p.conflicts + [Conflict(cand.id, d.clashes.Keys + (if d.recordClash then {"@record"} else {}))])
      else p.(changes := p.changes + [ChangeFrom(cand, d.remote)])
  }

  ghost function AddedAll(conn: Connection, p: Proposal, cands: seq<Candidate>): Proposal {
    if cands == [] then p else Added(conn, AddedAll(conn, p, cands[..|cands| - 1]), cands[|cands| - 1])
  }

  method Add(conn: Connection, p: Proposal, cand: Candidate) returns (r: Proposal)
    ensures r == Added(conn, p, cand)
  {
    var bound := BoundTo(conn, cand);
    if bound.Some? && Some(bound.value.local) != cand.subject {
      return p.(conflicts := p.conflicts + [Conflict(cand.id, {"Missing or rebound Atomic identity"})]);
    }
    var d := Reconcile.ReconcileRecord(BaseOf(conn, cand), SideOf(cand.local), SideOf(cand.remote));
    if d.HasConflict() {
      return p.(conflicts := p.conflicts + [Conflict(cand.id, d.clashes.Keys + (if d.recordClash then {"@record"} else {}))]);
    }
    return p.(changes := p.changes + [ChangeFrom(cand, d.remote)]);
  }

  // ----- The candidates -----

  function FieldCandidate(w: World, f: Field): Result<Candidate> {
    if f.id !in w.schema.properties then Err("Mapped property was removed")
    else Ok(Candidate(SchemaChange, Some(f.id), Some(f.property),
                      Some(map["name" := Get(Read(w, f.property), Name)]),
                      Some(map["name" := Text(w.schema.properties[f.id].name)])))
  }

  function Probe(kind: Kind, id: Option<NotionId>, subject: Option<Iri>): Change {
    Change(kind, id, subject, None, None, map[])
  }

  function ViewCandidate(w: World, conn: Connection, c: Config, v: ViewBinding): Result<Candidate> {
    var here :- ReadLocal(w, conn, c, Probe(ViewChange, Some(v.id), Some(v.subject)), Some(v.subject));
    var there :- ReadRemote(w, c, ViewChange, Some(v.id));
    Ok(Candidate(ViewChange, Some(v.id), Some(v.subject), here, Some(there)))
  }

  /** A row's page id: `None` when it has none yet, an error when it is not one. */
  function RowIdentity(w: World, c: Config, s: Iri): Result<Option<NotionId>> {
    var id := Get(Read(w, s), c.identity);
    if id.Missing? || id.Null? || id == Id("") then Ok(None)
    else if id.Id? then Ok(Some(id.id))
    else Err("Expected a Notion data source/page/view UUID")
  }

  function RowCandidate(w: World, conn: Connection, c: Config, s: Iri): Result<Candidate> {
    var here :- ReadRow(w, conn, c, s);
    Ok(Candidate(PageChange, None, Some(s), Some(here), None))
  }

  function PageCandidate(w: World, conn: Connection, c: Config, id: NotionId, subject: Option<Iri>): Result<Candidate> {
    var here :- if subject.Some? then ReadRow(w, conn, c, subject.value) else Ok(map[]);
    var there :- ReadRemote(w, c, PageChange, Some(id));
    Ok(Candidate(PageChange, Some(id), subject, if subject.Some? then Some(here) else None, Some(there)))
  }

  function FieldPass(w: World, fields: seq<Field>): Result<seq<Candidate>> {
    if fields == [] then Ok([])
    else
      var before :- FieldPass(w, fields[..|fields| - 1]);
      var last :- FieldCandidate(w, fields[|fields| - 1]);
      Ok(before + [last])
  }

  function ViewPass(w: World, conn: Connection, c: Config, views: seq<ViewBinding>): Result<seq<Candidate>> {
    if views == [] then Ok([])
    else
      var before :- ViewPass(w, conn, c, views[..|views| - 1]);
      var last :- ViewCandidate(w, conn, c, views[|views| - 1]);
      Ok(before + [last])
  }

  datatype Rows = Rows(unsynced: seq<Candidate>, byId: map<NotionId, Iri>)

  function RowPass(w: World, conn: Connection, c: Config, rows: seq<Iri>): Result<Rows> {
    if rows == [] then Ok(Rows([], map[]))
    else
      var s := rows[|rows| - 1];
      var before :- RowPass(w, conn, c, rows[..|rows| - 1]);
      var id :- RowIdentity(w, c, s);
      if id.Some? then
        if id.value in before.byId then Err("Duplicate Notion page identity")
        else Ok(before.(byId := before.byId[id.value := s]))
      else
        var cand :- RowCandidate(w, conn, c, s);
        Ok(before.(unsynced := before.unsynced + [cand]))
  }

  function SubjectOf(byId: map<NotionId, Iri>, id: NotionId): Option<Iri> {
    if id in byId then Some(byId[id]) else None
  }

  function PagePass(w: World, conn: Connection, c: Config, byId: map<NotionId, Iri>, pages: seq<NotionId>): Result<seq<Candidate>> {
    if pages == [] then Ok([])
    else
      var n := |pages| - 1;
      var before :- PagePass(w, conn, c, byId, pages[..n]);
      if pages[n] in pages[..n] then Err("Duplicate page during scan; retry a stable read")
      else
        var last :- PageCandidate(w, conn, c, pages[n], SubjectOf(byId, pages[n]));
        Ok(before + [last])
  }

  /** A row whose page the scan did not return. */
  function LostRows(w: World, c: Config, rows: seq<Iri>, pages: seq<NotionId>): seq<Conflict> {
    if rows == [] then []
    else
      var s := rows[|rows| - 1];
      var id := RowIdentity(w, c, s);
      LostRows(w, c, rows[..|rows| - 1], pages)
      + if id.Ok? && id.value.Some? && id.value.value !in pages
        then [Conflict(id.value, {"Missing or inaccessible page; no deletion inferred"})] else []
  }

  /** A page synced before that the scan did not return. */
  function LostPages(keys: seq<RecordKey>, pages: seq<NotionId>): seq<Conflict> {
    if keys == [] then []
    else
      var key := keys[|keys| - 1];
      LostPages(keys[..|keys| - 1], pages)
      + if key.kind == PageChange && key.id !in pages then [Conflict(Some(key.id), {"Previously synced page missing"})] else []
  }

  function Candidates(w: World, conn: Connection, c: Config, listing: Listing): Result<seq<Candidate>> {
    var fields :- FieldPass(w, c.fields);
    var views :- ViewPass(w, conn, c, c.views);
    var rows :- RowPass(w, conn, c, listing.rows);
    var pages :- PagePass(w, conn, c, rows.byId, listing.pages);
    Ok(fields + views + rows.unsynced + pages)
  }

  ghost function PreviewOf(w: World, conn: Connection, c: Config, listing: Listing): Result<Proposal> {
    var _ :- CheckSchema(w, c);
    var cands :- Candidates(w, conn, c, listing);
    var p := AddedAll(conn, Proposal(c.dataSource, [], []), cands);
    Ok(p.(conflicts := p.conflicts + LostRows(w, c, listing.rows, listing.pages) + LostPages(listing.keys, listing.pages)))
  }

  // ----- The loops -----

  lemma {:induction false} FieldPassStops(w: World, fields: seq<Field>, i: nat)
    requires i <= |fields| && FieldPass(w, fields[..i]).Err?
    ensures FieldPass(w, fields) == FieldPass(w, fields[..i])
    decreases |fields|
  {
    if i < |fields| {
      assert fields[..|fields| - 1][..i] == fields[..i];
      FieldPassStops(w, fields[..|fields| - 1], i);
    } else {
      assert fields[..i] == fields;
    }
  }

  lemma {:induction false} ViewPassStops(w: World, conn: Connection, c: Config, views: seq<ViewBinding>, i: nat)
    requires i <= |views| && ViewPass(w, conn, c, views[..i]).Err?
    ensures ViewPass(w, conn, c, views) == ViewPass(w, conn, c, views[..i])
    decreases |views|
  {
    if i < |views| {
      assert views[..|views| - 1][..i] == views[..i];
      ViewPassStops(w, conn, c, views[..|views| - 1], i);
    } else {
      assert views[..i] == views;
    }
  }

  lemma {:induction false} RowPassStops(w: World, conn: Connection, c: Config, rows: seq<Iri>, i: nat)
    requires i <= |rows| && RowPass(w, conn, c, rows[..i]).Err?
    ensures RowPass(w, conn, c, rows) == RowPass(w, conn, c, rows[..i])
    decreases |rows|
  {
    if i < |rows| {
      assert rows[..|rows| - 1][..i] == rows[..i];
      RowPassStops(w, conn, c, rows[..|rows| - 1], i);
    } else {
      assert rows[..i] == rows;
    }
  }

  lemma {:induction false} PagePassStops(w: World, conn: Connection, c: Config, byId: map<NotionId, Iri>, pages: seq<NotionId>, i: nat)
    requires i <= |pages| && PagePass(w, conn, c, byId, pages[..i]).Err?
    ensures PagePass(w, conn, c, byId, pages) == PagePass(w, conn, c, byId, pages[..i])
    decreases |pages|
  {
    if i < |pages| {
      assert pages[..|pages| - 1][..i] == pages[..i];
      PagePassStops(w, conn, c, byId, pages[..|pages| - 1], i);
    } else {
      assert pages[..i] == pages;
    }
  }

  lemma AddedOne(conn: Connection, p: Proposal, cands: seq<Candidate>, cand: Candidate)
    ensures AddedAll(conn, p, cands + [cand]) == Added(conn, AddedAll(conn, p, cands), cand)
  {
    assert (cands + [cand])[..|cands|] == cands;
  }

  method PreviewFields(w: World, conn: Connection, c: Config, start: Proposal) returns (r: Result<Proposal>)
    ensures FieldPass(w, c.fields).Err? ==> r == Err(FieldPass(w, c.fields).error)
    ensures FieldPass(w, c.fields).Ok? ==> r == Ok(AddedAll(conn, start, FieldPass(w, c.fields).value))
  {
    hide FieldCandidate, Added;
    var p := start;
    for i := 0 to |c.fields|
      invariant FieldPass(w, c.fields[..i]).Ok? && p == AddedAll(conn, start, FieldPass(w, c.fields[..i]).value)
    {
      assert c.fields[..i + 1][..i] == c.fields[..i];
      var cand := FieldCandidate(w, c.fields[i]);
      if cand.Err? {
        FieldPassStops(w, c.fields, i + 1);
        return Err(cand.error);
      }
      AddedOne(conn, start, FieldPass(w, c.fields[..i]).value, cand.value);
      p := Add(conn, p, cand.value);
    }
    assert c.fields[..|c.fields|] == c.fields;
    return Ok(p);
  }

  method PreviewViews(w: World, conn: Connection, c: Config, start: Proposal) returns (r: Result<Proposal>)
    ensures ViewPass(w, conn, c, c.views).Err? ==> r == Err(ViewPass(w, conn, c, c.views).error)
    ensures ViewPass(w, conn, c, c.views).Ok? ==> r == Ok(AddedAll(conn, start, ViewPass(w, conn, c, c.views).value))
  {
    hide ViewCandidate, Added;
    var p := start;
    for i := 0 to |c.views|
      invariant ViewPass(w, conn, c, c.views[..i]).Ok? && p == AddedAll(conn, start, ViewPass(w, conn, c, c.views[..i]).value)
    {
      assert c.views[..i + 1][..i] == c.views[..i];
      var cand := ViewCandidate(w, conn, c, c.views[i]);
      if cand.Err? {
        ViewPassStops(w, conn, c, c.views, i + 1);
        return Err(cand.error);
      }
      AddedOne(conn, start, ViewPass(w, conn, c, c.views[..i]).value, cand.value);
      p := Add(conn, p, cand.value);
    }
    assert c.views[..|c.views|] == c.views;
    return Ok(p);
  }

  method PreviewRows(w: World, conn: Connection, c: Config, rows: seq<Iri>, start: Proposal) returns (r: Result<Proposal>, byId: map<NotionId, Iri>)
    ensures RowPass(w, conn, c, rows).Err? ==> r == Err(RowPass(w, conn, c, rows).error)
    ensures RowPass(w, conn, c, rows).Ok? ==>
      r == Ok(AddedAll(conn, start, RowPass(w, conn, c, rows).value.unsynced)) && byId == RowPass(w, conn, c, rows).value.byId
  {
    hide RowCandidate, RowIdentity, Added;
    var p := start;
    byId := map[];
    for i := 0 to |rows|
      invariant RowPass(w, conn, c, rows[..i]).Ok?
      invariant p == AddedAll(conn, start, RowPass(w, conn, c, rows[..i]).value.unsynced)
      invariant byId == RowPass(w, conn, c, rows[..i]).value.byId
    {
      assert rows[..i + 1][..i] == rows[..i];
      var id := RowIdentity(w, c, rows[i]);
      if id.Err? {
        RowPassStops(w, conn, c, rows, i + 1);
        return Err(id.error), byId;
      }
      if id.value.Some? {
        if id.value.value in byId {
          RowPassStops(w, conn, c, rows, i + 1);
          return Err("Duplicate Notion page identity"), byId;
        }
        byId := byId[id.value.value := rows[i]];
      } else {
        var cand := RowCandidate(w, conn, c, rows[i]);
        if cand.Err? {
          RowPassStops(w, conn, c, rows, i + 1);
          return Err(cand.error), byId;
        }
        AddedOne(conn, start, RowPass(w, conn, c, rows[..i]).value.unsynced, cand.value);
        p := Add(conn, p, cand.value);
      }
    }
    assert rows[..|rows|] == rows;
    return Ok(p), byId;
  }

  method PreviewPages(w: World, conn: Connection, c: Config, byId: map<NotionId, Iri>, pages: seq<NotionId>, start: Proposal) returns (r: Result<Proposal>)
    ensures PagePass(w, conn, c, byId, pages).Err? ==> r == Err(PagePass(w, conn, c, byId, pages).error)
    ensures PagePass(w, conn, c, byId, pages).Ok? ==> r == Ok(AddedAll(conn, start, PagePass(w, conn, c, byId, pages).value))
  {
    hide PageCandidate, Added;
    var p := start;
    var seen: set<NotionId> := {};
    for i := 0 to |pages|
      invariant PagePass(w, conn, c, byId, pages[..i]).Ok?
      invariant p == AddedAll(conn, start, PagePass(w, conn, c, byId, pages[..i]).value)
      invariant forall x :: x in seen <==> x in pages[..i]
    {
      assert pages[..i + 1][..i] == pages[..i];
      if pages[i] in seen {
        PagePassStops(w, conn, c, byId, pages, i + 1);
        return Err("Duplicate page during scan; retry a stable read");
      }
      seen := seen + {pages[i]};
      var cand := PageCandidate(w, conn, c, pages[i], SubjectOf(byId, pages[i]));
      if cand.Err? {
        PagePassStops(w, conn, c, byId, pages, i + 1);
        return Err(cand.error);
      }
      AddedOne(conn, start, PagePass(w, conn, c, byId, pages[..i]).value, cand.value);
      p := Add(conn, p, cand.value);
    }
    assert pages[..|pages|] == pages;
    return Ok(p);
  }

  lemma {:induction false} AddedAllAppend(conn: Connection, p: Proposal, a: seq<Candidate>, b: seq<Candidate>)
    ensures AddedAll(conn, p, a + b) == AddedAll(conn, AddedAll(conn, p, a), b)
  {
    if b == [] {
      assert a + b == a;
    } else {
      assert (a + b)[..|a + b| - 1] == a + b[..|b| - 1];
      AddedAllAppend(conn, p, a, b[..|b| - 1]);
    }
  }

  /** The whole preview: fields, views, rows without a page, the scan, then what is missing. */
  method Preview(w: World, conn: Connection, c: Config, listing: Listing) returns (r: Result<Proposal>)
    ensures r == PreviewOf(w, conn, c, listing)
  {
    var schema := CheckSchema(w, c);
    if schema.Err? {
      return Err(schema.error);
    }
    hide CheckSchema, Added, FieldPass, ViewPass, RowPass, PagePass;
    var empty := Proposal(c.dataSource, [], []);
    var fields := PreviewFields(w, conn, c, empty);
    if fields.Err? { return fields; }
    var views := PreviewViews(w, conn, c, fields.value);
    if views.Err? { return views; }
    var rows, byId := PreviewRows(w, conn, c, listing.rows, views.value);
    if rows.Err? { return rows; }
    var pages := PreviewPages(w, conn, c, byId, listing.pages, rows.value);
    if pages.Err? { return pages; }
    ghost var f, v := FieldPass(w, c.fields).value, ViewPass(w, conn, c, c.views).value;
    ghost var n, g := RowPass(w, conn, c, listing.rows).value.unsynced, PagePass(w, conn, c, byId, listing.pages).value;
    AddedAllAppend(conn, empty, f, v);
    AddedAllAppend(conn, empty, f + v, n);
    AddedAllAppend(conn, empty, f + v + n, g);
    var p := pages.value;
    p := p.(conflicts := p.conflicts + LostRows(w, c, listing.rows, listing.pages) + LostPages(listing.keys, listing.pages));
    return Ok(p);
  }
}
