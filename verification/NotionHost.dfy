/** The host and the provider around a sync run: effects applied literally, and the checkpoint. */
module NotionHost {
  import opened Wrappers
  import opened TextChunks
  import opened NotionModel
  import opened NotionRows
  import opened NotionViews
  import opened NotionSync

  /** A provider request carried out; `minted` is the id a new page gets. */
  function Provided(w: World, request: Request, minted: NotionId): World {
    match request
    case CreatePage(dataSource, properties) => w.(pages := w.pages[minted := Page(true, dataSource, false, false, properties)])
    case UpdatePage(page, properties) => if page in w.pages then w.(pages := w.pages[page := Patched(w.pages[page], properties)]) else w
    case RenameProperty(property, name) =>
      if property in w.schema.properties && name.Text?
      then w.(schema := w.schema.(properties := w.schema.properties[property := w.schema.properties[property].(name := name.text)]))
      else w
    case UpdateView(view, patch) => if view in w.views then w.(views := w.views[view := PatchedView(w.views[view], patch)]) else w
  }

  function ProviderReceipt(w: World, request: Request, minted: NotionId): Receipt {
    match request
    case CreatePage(_, _) => PageReceipt(true, minted, Provided(w, request, minted).pages[minted])
    case UpdatePage(page, _) => if page in w.pages then PageReceipt(true, page, Provided(w, request, minted).pages[page]) else NoReceipt
    case _ => NoReceipt
  }

  function Remove(row: Row, properties: seq<Iri>): Row {
    map p | p in row && p !in properties :: row[p]
  }

  /** One Atomic intent carried out; `minted` is the subject a new resource gets. */
  function Applied(w: World, intent: Intent, minted: Iri): World {
    match intent
    case SetIntent(subject, put) => w.(resources := w.resources[subject := Read(w, subject) + put])
    case RemoveIntent(subject, properties) => w.(resources := w.resources[subject := Remove(Read(w, subject), properties)])
    case CreateIntent(parent, isA, put) => w.(resources := w.resources[minted := map[Parent := Link(parent), IsA := Links(isA)] + put])
  }

  function AllApplied(w: World, intents: seq<Intent>, minted: Iri): World
    decreases intents
  {
    if intents == [] then w else AllApplied(Applied(w, intents[0], minted), intents[1..], minted)
  }

  function IntentSubject(intent: Intent, minted: Iri): Iri {
    match intent
    case SetIntent(subject, _) => subject
    case RemoveIntent(subject, _) => subject
    case CreateIntent(_, _, _) => minted
  }

  function AtomicReceiptOf(intents: seq<Intent>, minted: Iri): Receipt {
    AtomicReceipt(if intents == [] then None else Some(IntentSubject(intents[0], minted)))
  }

  // ----- The checkpoint -----

  predicate Acceptable(records: seq<SyncRecord>) {
    && (forall i :: 0 <= i < |records| ==>
          records[i].remote.Some? && records[i].local.Some? && records[i].localProjection == Some(records[i].remoteProjection))
    && (forall i, j :: 0 <= i < j < |records| ==>
          !(records[i].kind == records[j].kind && records[i].remote == records[j].remote))
  }

  function Recorded(bindings: map<RecordKey, Binding>, records: seq<SyncRecord>): map<RecordKey, Binding>
    requires forall i :: 0 <= i < |records| ==> records[i].remote.Some? && records[i].local.Some?
  {
    if records == [] then bindings
    else
      var n := |records| - 1;
      Recorded(bindings, records[..n])[RecordKey(records[n].kind, records[n].remote.value) := Binding(records[n].local.value, records[n].localProjection)]
  }

  /** Folds the records into the connection one by one, refusing repeated or unconverged ones. */
  method CommitCheckpoint(conn: Connection, records: seq<SyncRecord>) returns (r: Result<Connection>)
    ensures r.Ok? <==> Acceptable(records)
    ensures r.Ok? ==> r.value == Connection(conn.revision + 1, Recorded(conn.records, records))
  {
    var bindings := conn.records;
    var seen: set<RecordKey> := {};
    for i := 0 to |records|
      invariant Acceptable(records[..i])
      invariant bindings == Recorded(conn.records, records[..i])
      invariant forall k :: k in seen <==> exists j :: 0 <= j < i && RecordKey(records[j].kind, records[j].remote.value) == k
    {
      var record := records[i];
      if record.remote.None? || record.local.None? || RecordKey(record.kind, record.remote.value) in seen
         || record.localProjection != Some(record.remoteProjection) {
        return Err("Checkpoint requires distinct, converged records");
      }
      assert records[..i + 1][..i] == records[..i];
      seen := seen + {RecordKey(record.kind, record.remote.value)};
      bindings := bindings[RecordKey(record.kind, record.remote.value) := Binding(record.local.value, record.localProjection)];
    }
    assert records[..|records|] == records;
    return Ok(Connection(conn.revision + 1, bindings));
  }

  lemma {:induction false} RecordedAt(bindings: map<RecordKey, Binding>, records: seq<SyncRecord>)
    requires Acceptable(records)
    ensures var after := Recorded(bindings, records);
      && (forall i :: 0 <= i < |records| ==>
            var key := RecordKey(records[i].kind, records[i].remote.value);
            key in after && after[key] == Binding(records[i].local.value, records[i].localProjection))
      && (forall key :: key in after ==> key in bindings || exists i :: 0 <= i < |records| && RecordKey(records[i].kind, records[i].remote.value) == key)
      && (forall key :: key in bindings ==> key in after)
  {
    if records != [] {
      var n := |records| - 1;
      RecordedAt(bindings, records[..n]);
      var before, after := Recorded(bindings, records[..n]), Recorded(bindings, records);
      forall i | 0 <= i < |records|
        ensures var key := RecordKey(records[i].kind, records[i].remote.value);
          key in after && after[key] == Binding(records[i].local.value, records[i].localProjection)
      {
        if i < n {
          assert records[..n][i] == records[i];
        }
      }
      forall key | key in after
        ensures key in bindings || exists i :: 0 <= i < |records| && RecordKey(records[i].kind, records[i].remote.value) == key
      {
        if key in before && key !in bindings {
          var i :| 0 <= i < n && RecordKey(records[..n][i].kind, records[..n][i].remote.value) == key;
          assert records[..n][i] == records[i];
        }
      }
    }
  }

  // ----- Quiet runs: nobody else edits -----

  datatype Session = Session(w: World, conn: Connection, cursor: Cursor, result: Receipt, complete: bool)

  ghost predicate Carried(effect: Effect, s: Session, next: Cursor, t: Session) {
    match effect
    case External(_, request) =>
      exists minted :: minted !in s.w.pages && minted != "" &&
        t == Session(Provided(s.w, request, minted), s.conn, next, ProviderReceipt(s.w, request, minted), false)
    case Atomic(_, intents) =>
      exists minted :: minted !in s.w.resources &&
        t == Session(AllApplied(s.w, intents, minted), s.conn, next, AtomicReceiptOf(intents, minted), false)
    case Checkpoint(records) =>
      Acceptable(records) && t == Session(s.w, Connection(s.conn.revision + 1, Recorded(s.conn.records, records)), next, NoReceipt, false)
  }

  /** One round of the host's loop when nothing else touches either store. */
  ghost predicate QuietStep(c: Config, p: Proposal, s: Session, t: Session) {
    !s.complete &&
    match Invoke(s.w, s.conn, c, p, s.cursor, s.result)
    case Complete => t == s.(complete := true)
    case Continue(next) => t == s.(cursor := next, result := NoReceipt)
    case Emit(effect, next) => Carried(effect, s, next, t)
    case Fail(_) => false
  }

  ghost predicate QuietRun(c: Config, p: Proposal, sessions: seq<Session>) {
    && sessions != []
    && forall i :: 0 <= i < |sessions| - 1 ==> QuietStep(c, p, sessions[i], sessions[i + 1])
  }
}
