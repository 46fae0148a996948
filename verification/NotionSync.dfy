/** The Notion sync as a resumable step machine over two stores: the provider's
    (schema, pages, views) and Atomic's resources. One invocation returns one
    durable effect with the cursor to save, `Continue`, `Complete`, or fails. */
module NotionSync {
  import opened Wrappers
  import opened Ordering
  import opened TextChunks
  import opened NotionModel
  import opened NotionRows
  import opened NotionViews

  // ----- The two stores -----

  datatype SchemaOption = SchemaOption(id: NotionId, name: Text)

  datatype SchemaProperty = SchemaProperty(kind: Option<FieldType>, name: Text, options: seq<SchemaOption>)

  datatype Schema = Schema(id: NotionId, properties: map<NotionId, SchemaProperty>)

  datatype World = World(schema: Schema, pages: map<NotionId, Page>, views: map<NotionId, View>, resources: map<Iri, Row>)

  function Read(w: World, subject: Iri): Row {
    if subject in w.resources then w.resources[subject] else map[]
  }

  /** The host's query: every resource whose property holds the value. */
  function Query(w: World, property: Iri, value: Value): set<Iri> {
    set s | s in w.resources && Get(w.resources[s], property) == value
  }

  // ----- Proposals and cursors -----

  datatype Kind = SchemaChange | ViewChange | PageChange

  datatype Binding = Binding(local: Iri, baseline: Option<Projection>)

  datatype RecordKey = RecordKey(kind: Kind, id: NotionId)

  datatype Connection = Connection(revision: nat, records: map<RecordKey, Binding>)

  datatype Change = Change(
    kind: Kind,
    id: Option<NotionId>,
    subject: Option<Iri>,
    local: Option<Projection>,
    remote: Option<Projection>,
    desired: Projection)

  datatype Conflict = Conflict(id: Option<NotionId>, fields: set<string>)

  datatype Proposal = Proposal(dataSource: NotionId, changes: seq<Change>, conflicts: seq<Conflict>)

  datatype SyncRecord = SyncRecord(
    kind: Kind,
    remote: Option<NotionId>,
    local: Option<Iri>,
    localProjection: Option<Projection>,
    remoteProjection: Projection)

  datatype Stage = Start | Created | Local | Written | Verify | Done

  datatype Cursor = Cursor(index: nat, stage: Stage, id: Option<NotionId>, subject: Option<Iri>, records: seq<SyncRecord>)

  const FIRST := Cursor(0, Start, None, None, [])

  /** The saved result of the previous effect. */
  datatype Receipt = NoReceipt | PageReceipt(ok: bool, id: NotionId, page: Page) | AtomicReceipt(subject: Option<Iri>)

  datatype Request =
    | CreatePage(dataSource: NotionId, properties: map<NotionId, PageProp>)
    | UpdatePage(page: NotionId, properties: map<NotionId, PageProp>)
    | RenameProperty(property: NotionId, name: Value)
    | UpdateView(view: NotionId, patch: ViewPatch)

  datatype Intent =
    | SetIntent(subject: Iri, put: Row)
    | RemoveIntent(subject: Iri, properties: seq<Iri>)
    | CreateIntent(parent: Iri, isA: seq<Iri>, put: Row)

  /** `External(i, ...)` has the id "i:remote" and `Atomic(i, ...)` the id "i:atomic". */
  datatype Effect = External(index: nat, request: Request) | Atomic(index: nat, intents: seq<Intent>) | Checkpoint(records: seq<SyncRecord>)

  datatype Outcome = Emit(effect: Effect, next: Cursor) | Continue(next: Cursor) | Complete | Fail(error: string)

  // ----- Reading both sides -----

  function OptionIds(options: seq<SchemaOption>): seq<NotionId> {
    if options == [] then [] else [options[0].id] + OptionIds(options[1..])
  }

  function ChoiceKeys(choices: seq<Choice>): seq<NotionId> {
    if choices == [] then [] else [choices[0].id] + ChoiceKeys(choices[1..])
  }

  predicate OptionNamed(w: World, f: Field, option: SchemaOption)
    requires f.options.Some?
  {
    f.optionNames.Some? ==>
      && option.id in f.optionNames.value
      && option.name == f.optionNames.value[option.id]
      && TagOf(f.options.value, option.id).Some?
      && Get(Read(w, TagOf(f.options.value, option.id).value), Name) == Text(f.optionNames.value[option.id])
  }

  function CheckSchemaField(w: World, f: Field): Result<bool> {
    if f.id !in w.schema.properties || w.schema.properties[f.id].kind != Some(f.kind)
    then Err("Mapped property changed type or was removed")
    else if f.options.None? then Ok(true)
    else
      var options := w.schema.properties[f.id].options;
      if Sort(OptionIds(options)) != Sort(ChoiceKeys(f.options.value)) then Err("Select options changed; refresh mapping before syncing")
      else if exists i :: 0 <= i < |options| && !OptionNamed(w, f, options[i]) then Err("Select option names changed; review the mapping before syncing")
      else Ok(true)
  }

  function CheckSchemaFields(w: World, fields: seq<Field>): Result<bool> {
    if fields == [] then Ok(true)
    else
      var _ :- CheckSchemaField(w, fields[0]);
      CheckSchemaFields(w, fields[1..])
  }

  function CheckSchema(w: World, c: Config): Result<bool> {
    if w.schema.id != c.dataSource then Err("Unexpected data source") else CheckSchemaFields(w, c.fields)
  }

  function BaselineOf(conn: Connection, key: RecordKey): Option<Projection> {
    if key in conn.records then conn.records[key].baseline else None
  }

  function ReadRow(w: World, conn: Connection, c: Config, subject: Iri): Result<Projection> {
    var row := Read(w, subject);
    var identity := Get(row, c.identity);
    RowProjection(row, c, if identity.Id? then BaselineOf(conn, RecordKey(PageChange, identity.id)) else None)
  }

  function ReadRemote(w: World, c: Config, kind: Kind, id: Option<NotionId>): Result<Projection> {
    if id.None? then Err("Expected a Notion data source/page/view UUID")
    else match kind
      case PageChange => if id.value in w.pages then PageProjection(w.pages[id.value], c) else Err("Notion returned 404; sync paused, no deletion inferred")
      case ViewChange => if id.value in w.views then RemoteViewProjection(w.views[id.value], c) else Err("Notion returned 404; sync paused, no deletion inferred")
      case SchemaChange =>
        var _ :- CheckSchema(w, c);
        if id.value in w.schema.properties then Ok(map["name" := Text(w.schema.properties[id.value].name)])
        else Err("No such property")
  }

  function BindingOf(views: seq<ViewBinding>, id: Option<NotionId>): Option<ViewBinding> {
    if views == [] then None else if Some(views[0].id) == id then Some(views[0]) else BindingOf(views[1..], id)
  }

  function ReadLocal(w: World, conn: Connection, c: Config, change: Change, subject: Option<Iri>): Result<Option<Projection>> {
    if subject.None? then Ok(None)
    else match change.kind
      case PageChange => var p :- ReadRow(w, conn, c, subject.value); Ok(Some(p))
      case SchemaChange => Ok(Some(map["name" := Get(Read(w, subject.value), Name)]))
      case ViewChange =>
        var binding := BindingOf(c.views, change.id);
        if binding.None? then Err("Unbound view")
        else var p :- LocalViewProjection(Read(w, subject.value), c, binding.value); Ok(Some(p))
  }

  // ----- Import identities -----

  function SourceId(c: Config, page: NotionId): Value {
    Id("notion:" + c.dataSource + ":page:" + page)
  }

  lemma SourceIdInjective(c: Config, a: NotionId, b: NotionId)
    requires SourceId(c, a) == SourceId(c, b)
    ensures a == b
  {
    var prefix := "notion:" + c.dataSource + ":page:";
    assert (prefix + a)[|prefix|..] == a && (prefix + b)[|prefix|..] == b;
  }

  /** Table rows that hold the value in the property. */
  function TableMatches(w: World, c: Config, property: Iri, value: Value): set<Iri> {
    set s | s in Query(w, property, value) && InTable(Read(w, s), c)
  }

  function ClaimImportIdentity(w: World, c: Config, source: Value, subject: Option<Iri>): Result<Row> {
    if exists s :: s in TableMatches(w, c, LocalId, source) && Some(s) != subject
    then Err("Import identity already exists; reconcile the binding before syncing")
    else if subject.Some? && !Get(Read(w, subject.value), LocalId).Missing? && Get(Read(w, subject.value), LocalId) != source
    then Err("Resource belongs to another import identity")
    else Ok(map[LocalId := source])
  }

  // ----- One transition -----

  datatype Turn = Go(cursor: Cursor) | Return(outcome: Outcome)

  function Sends(cursor: Cursor, request: Request, next: Cursor): Turn {
    Return(Emit(External(cursor.index, request), next))
  }

  /** The provider write a change still needs, if any. */
  function ProviderWrite(w: World, c: Config, change: Change): Result<Option<Request>> {
    match change.kind
    case PageChange =>
      var patch :- PagePatchOf(change.desired, change.remote, c);
      if change.id.None? then Ok(Some(CreatePage(c.dataSource, patch)))
      else if patch != map[] then Ok(Some(UpdatePage(change.id.value, patch)))
      else Ok(None)
    case SchemaChange =>
      if Some(change.desired) != change.remote && change.id.Some?
      then Ok(Some(RenameProperty(change.id.value, Get(change.desired, "name"))))
      else Ok(None)
    case ViewChange =>
      if change.id.None? || change.id.value !in w.views then Err("Unexpected Notion view")
      else
        var patch :- RemoteViewPatch(change.desired, w.views[change.id.value], c);
        Ok(if patch != ViewPatch(None, None) then Some(UpdateView(change.id.value, patch)) else None)
  }

  /** Both sides are still what the preview saw. */
  function AsPreviewed(w: World, conn: Connection, c: Config, change: Change): Result<bool> {
    var _ :- CheckSchema(w, c);
    var here :- ReadLocal(w, conn, c, change, change.subject);
    if here != change.local then Err("Atomic data changed after preview")
    else if change.id.None? then Ok(true)
    else
      var there :- ReadRemote(w, c, change.kind, change.id);
      if Some(there) != change.remote then Err("Notion data changed after preview") else Ok(true)
  }

  function StartTurn(w: World, conn: Connection, c: Config, change: Change, cursor: Cursor): Turn {
    var steady := AsPreviewed(w, conn, c, change);
    var next := cursor.(id := change.id, subject := change.subject, stage := Local);
    if steady.Err? then Return(Fail(steady.error))
    else match ProviderWrite(w, c, change)
      case Err(error) => Return(Fail(error))
      case Ok(None) => Go(next)
      case Ok(Some(request)) => Sends(cursor, request, if request.CreatePage? then next.(stage := Created) else next)
  }

  function CreatedTurn(c: Config, cursor: Cursor, result: Receipt): Turn {
    if !result.PageReceipt? || !result.ok then Return(Fail("Notion returned an error; sync paused, no deletion inferred"))
    else if PageProjection(result.page, c).Err? then Return(Fail(PageProjection(result.page, c).error))
    else Go(cursor.(id := Some(result.id), stage := Local))
  }

  /** What the local write sets and removes. */
  function LocalPatch(w: World, conn: Connection, c: Config, change: Change, cursor: Cursor): Result<RowPatch> {
    match change.kind
    case PageChange =>
      if cursor.id.None? then Err("Expected a Notion data source/page/view UUID")
      else if exists s :: s in TableMatches(w, c, c.identity, Id(cursor.id.value)) && Some(s) != cursor.subject
      then Err("Unexpected page binding appeared during sync")
      else
        var patch :- RowPatchOf(change.desired, c);
        var claimed :- ClaimImportIdentity(w, c, SourceId(c, cursor.id.value), cursor.subject);
        var put := (patch.put + claimed)[c.identity := Id(cursor.id.value)];
        Ok(RowPatch(if cursor.subject.None? && conn.revision > 0 then put[c.arrival := Id("remote")] else put, patch.remove))
    case SchemaChange => Ok(RowPatch(map[Name := Get(change.desired, "name")], []))
    case ViewChange => ViewRowPatch(change.desired, c)
  }

  /** Nothing is left to write on the Atomic side. */
  predicate AlreadyWritten(w: World, c: Config, change: Change, cursor: Cursor)
    requires change.kind.PageChange? ==> TitleField(c.fields).Some?
  {
    change.kind.PageChange? ==>
      && cursor.id.Some? && cursor.subject.Some?
      && var row, title := Read(w, cursor.subject.value), TitleField(c.fields).value;
         && Get(row, c.identity) == Id(cursor.id.value)
         && Get(row, LocalId) == SourceId(c, cursor.id.value)
         && Get(row, Name) == Get(change.desired, title.id)
         && Get(row, title.property) == Get(change.desired, title.id)
  }

  function Intents(c: Config, cursor: Cursor, patch: RowPatch): seq<Intent> {
    if cursor.subject.Some? then
      [SetIntent(cursor.subject.value, patch.put)] +
      (if patch.remove != [] then [RemoveIntent(cursor.subject.value, patch.remove)] else [])
    else [CreateIntent(c.table, [c.rowClass], patch.put)]
  }

  function LocalTurn(w: World, conn: Connection, c: Config, change: Change, cursor: Cursor): Turn {
    var there := ReadRemote(w, c, change.kind, cursor.id);
    var here := ReadLocal(w, conn, c, change, cursor.subject);
    if there.Err? then Return(Fail(there.error))
    else if there.value != change.desired then Return(Fail("Notion has not converged; keep the saved run for reconciliation"))
    else if here.Err? then Return(Fail(here.error))
    else if here.value != change.local && here.value != Some(change.desired) then Return(Fail("Atomic data changed during sync"))
    else
      var patch := LocalPatch(w, conn, c, change, cursor);
      if patch.Err? then Return(Fail(patch.error))
      else if here.value == Some(change.desired) && change.kind.PageChange? && TitleField(c.fields).None? then Return(Fail("No title field"))
      else if here.value == Some(change.desired) && AlreadyWritten(w, c, change, cursor) then Go(cursor.(stage := Verify))
      else Return(Emit(Atomic(cursor.index, Intents(c, cursor, patch.value)), cursor.(stage := Written)))
  }

  function WrittenTurn(cursor: Cursor, result: Receipt): Turn {
    if !result.AtomicReceipt? || result.subject.None? then Return(Fail("Missing Atomic receipt"))
    else Go(cursor.(subject := result.subject, stage := Verify))
  }

  function VerifyTurn(w: World, conn: Connection, c: Config, change: Change, cursor: Cursor): Turn {
    var here := ReadLocal(w, conn, c, change, cursor.subject);
    var there := ReadRemote(w, c, change.kind, cursor.id);
    if here.Err? then Return(Fail(here.error))
    else if there.Err? then Return(Fail(there.error))
    else if here.value != Some(change.desired) || there.value != change.desired then Return(Fail("Both sides must agree before checkpointing"))
    else
      var record := SyncRecord(change.kind, cursor.id, cursor.subject, here.value, there.value);
      Return(Continue(Cursor(cursor.index + 1, Start, None, None, cursor.records + [record])))
  }

  function TurnOf(w: World, conn: Connection, c: Config, proposal: Proposal, cursor: Cursor, result: Receipt): Turn {
    if cursor.stage == Done then Return(Complete)
    else if cursor.index == |proposal.changes| then Return(Emit(Checkpoint(cursor.records), cursor.(stage := Done)))
    else if cursor.index > |proposal.changes| then Return(Fail("No such change"))
    else
      var change := proposal.changes[cursor.index];
      match cursor.stage
      case Start => StartTurn(w, conn, c, change, cursor)
      case Created => CreatedTurn(c, cursor, result)
      case Local => LocalTurn(w, conn, c, change, cursor)
      case Written => WrittenTurn(cursor, result)
      case Verify => VerifyTurn(w, conn, c, change, cursor)
  }

  const BUDGET := 8
  const OVER_BUDGET := "Notion continuation exceeded transition budget"

  function Turner(w: World, conn: Connection, c: Config, proposal: Proposal, result: Receipt): Cursor -> Turn {
    (cursor: Cursor) => TurnOf(w, conn, c, proposal, cursor, result)
  }

  /** Takes turns until one returns, at most `budget` of them. */
  function Drive(turn: Cursor -> Turn, cursor: Cursor, budget: nat): Outcome
    decreases budget
  {
    if budget == 0 then Fail(OVER_BUDGET)
    else match turn(cursor)
      case Return(outcome) => outcome
      case Go(next) => Drive(turn, next, budget - 1)
  }

  method TakeTurns(turn: Cursor -> Turn, start: Cursor) returns (outcome: Outcome)
    ensures outcome == Drive(turn, start, BUDGET)
  {
    var cursor := start;
    for i := 0 to BUDGET
      invariant Drive(turn, start, BUDGET) == Drive(turn, cursor, BUDGET - i)
    {
      match turn(cursor) {
        case Return(done) => return done;
        case Go(next) => cursor := next;
      }
    }
    return Fail(OVER_BUDGET);
  }

  predicate AcceptedConfig(c: Config) {
    && c.fields != []
    && (forall i, j :: 0 <= i < j < |c.fields| ==> c.fields[i].id != c.fields[j].id && c.fields[i].property != c.fields[j].property)
  }

  predicate Approved(c: Config, proposal: Proposal) {
    proposal.dataSource == c.dataSource && proposal.conflicts == []
  }

  function Invoke(w: World, conn: Connection, c: Config, proposal: Proposal, cursor: Cursor, result: Receipt): Outcome {
    if !AcceptedConfig(c) then Fail("Invalid or duplicate Notion field mappings")
    else if !Approved(c, proposal) then Fail("A conflict-free approved Notion preview is required")
    else Drive(Turner(w, conn, c, proposal, result), cursor, BUDGET)
  }

  /** One invocation in the step phase. */
  method Step(w: World, conn: Connection, c: Config, proposal: Proposal, saved: Option<Cursor>, result: Receipt) returns (outcome: Outcome)
    ensures outcome == Invoke(w, conn, c, proposal, if saved.Some? then saved.value else FIRST, result)
  {
    hide Drive, TurnOf;
    if !AcceptedConfig(c) {
      return Fail("Invalid or duplicate Notion field mappings");
    }
    if !Approved(c, proposal) {
      return Fail("A conflict-free approved Notion preview is required");
    }
    outcome := TakeTurns(Turner(w, conn, c, proposal, result), if saved.Some? then saved.value else FIRST);
  }
}
