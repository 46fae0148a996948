/** What a write to one side of one change leaves alone. */
module NotionFrames {
  import opened Wrappers
  import opened Ordering
  import opened TextChunks
  import opened NotionModel
  import opened NotionRows
  import opened NotionViews
  import opened NotionSync
  import opened NotionHost

  ghost predicate IsTag(c: Config, s: Iri) {
    exists i, j :: 0 <= i < |c.fields| && c.fields[i].options.Some? && 0 <= j < |c.fields[i].options.value| && c.fields[i].options.value[j].tag == s
  }

  lemma {:induction false} TagListed(choices: seq<Choice>, id: NotionId)
    requires TagOf(choices, id).Some?
    ensures exists j :: 0 <= j < |choices| && choices[j].tag == TagOf(choices, id).value
  {
    if choices[0].id != id {
      TagListed(choices[1..], id);
      var j :| 0 <= j < |choices[1..]| && choices[1..][j].tag == TagOf(choices[1..], id).value;
      assert choices[j + 1].tag == TagOf(choices, id).value;
    }
  }

  // ----- Provider writes -----

  /** Everything but the object of that kind and id is as before, and nothing disappeared. */
  ghost predicate OnlyRemote(w: World, after: World, kind: Kind, id: NotionId) {
    && after.resources == w.resources
    && after.schema.id == w.schema.id
    && (forall x :: x in w.schema.properties ==>
          && x in after.schema.properties
          && after.schema.properties[x].kind == w.schema.properties[x].kind
          && after.schema.properties[x].options == w.schema.properties[x].options
          && (kind != SchemaChange || x != id ==> after.schema.properties[x] == w.schema.properties[x]))
    && after.pages.Keys <= w.pages.Keys + (if kind == PageChange then {id} else {})
    && (forall x :: x in w.pages ==> x in after.pages && (kind != PageChange || x != id ==> after.pages[x] == w.pages[x]))
    && (forall x :: x in w.views ==> x in after.views && (kind != ViewChange || x != id ==> after.views[x] == w.views[x]))
  }

  lemma {:induction false} SchemaSurvivesRemote(w: World, after: World, kind: Kind, id: NotionId, fields: seq<Field>)
    requires OnlyRemote(w, after, kind, id)
    requires CheckSchemaFields(w, fields).Ok?
    ensures CheckSchemaFields(after, fields).Ok?
  {
    if fields != [] {
      var f := fields[0];
      if f.options.Some? {
        var options := w.schema.properties[f.id].options;
        forall i | 0 <= i < |options| ensures OptionNamed(after, f, options[i]) {
          assert OptionNamed(w, f, options[i]);
        }
      }
      hide OnlyRemote, OptionNamed, TagOf;
      SchemaSurvivesRemote(w, after, kind, id, fields[1..]);
    }
  }

  lemma RemoteFrame(w: World, after: World, kind: Kind, id: NotionId, c: Config)
    requires OnlyRemote(w, after, kind, id)
    ensures CheckSchema(w, c).Ok? ==> CheckSchema(after, c).Ok?
    ensures forall k: Kind, x: Option<NotionId> :: x != Some(id) || k != kind ==>
      ReadRemote(w, c, k, x).Ok? ==> ReadRemote(after, c, k, x) == ReadRemote(w, c, k, x)
  {
    if CheckSchema(w, c).Ok? {
      SchemaSurvivesRemote(w, after, kind, id, c.fields);
    }
  }

  lemma LocalReadsIgnoreRemote(w: World, after: World, conn: Connection, c: Config, ch: Change, subject: Option<Iri>)
    requires after.resources == w.resources
    ensures ReadLocal(after, conn, c, ch, subject) == ReadLocal(w, conn, c, ch, subject)
  {
  }

  lemma MatchesIgnoreRemote(w: World, after: World, c: Config, property: Iri, value: Value)
    requires after.resources == w.resources
    ensures TableMatches(after, c, property, value) == TableMatches(w, c, property, value)
  {
    assert Query(after, property, value) == Query(w, property, value);
  }

  // ----- Atomic writes -----

  ghost predicate OnlyLocal(w: World, after: World, s: Iri) {
    && after.schema == w.schema && after.pages == w.pages && after.views == w.views
    && after.resources.Keys == w.resources.Keys + {s}
    && forall t :: t in w.resources && t != s ==> after.resources[t] == w.resources[t]
  }

  lemma OptionSurvivesLocal(w: World, after: World, s: Iri, c: Config, f: Field, option: SchemaOption)
    requires OnlyLocal(w, after, s)
    requires s in w.resources ==> !IsTag(c, s)
    requires f in c.fields && f.options.Some?
    requires OptionNamed(w, f, option)
    ensures OptionNamed(after, f, option)
  {
    if f.optionNames.Some? {
      var tag := TagOf(f.options.value, option.id).value;
      TagListed(f.options.value, option.id);
      var i :| 0 <= i < |c.fields| && c.fields[i] == f;
      var j :| 0 <= j < |f.options.value| && f.options.value[j].tag == tag;
      assert c.fields[i].options.value[j].tag == tag;
      assert IsTag(c, tag);
      assert tag in w.resources;
    }
  }

  lemma {:induction false} SchemaSurvivesLocal(w: World, after: World, s: Iri, c: Config, fields: seq<Field>)
    requires OnlyLocal(w, after, s)
    requires s in w.resources ==> !IsTag(c, s)
    requires forall i :: 0 <= i < |fields| ==> fields[i] in c.fields
    requires CheckSchemaFields(w, fields).Ok?
    ensures CheckSchemaFields(after, fields).Ok?
  {
    if fields != [] {
      var f := fields[0];
      if f.options.Some? {
        var options := w.schema.properties[f.id].options;
        forall i | 0 <= i < |options| ensures OptionNamed(after, f, options[i]) {
          OptionSurvivesLocal(w, after, s, c, f, options[i]);
        }
      }
      SchemaSurvivesLocal(w, after, s, c, fields[1..]);
    }
  }

  lemma LocalFrame(w: World, after: World, s: Iri, c: Config)
    requires OnlyLocal(w, after, s)
    requires s in w.resources ==> !IsTag(c, s)
    requires CheckSchema(w, c).Ok?
    ensures CheckSchema(after, c).Ok?
    ensures forall k: Kind, x: Option<NotionId> :: ReadRemote(after, c, k, x) == ReadRemote(w, c, k, x)
  {
    SchemaSurvivesLocal(w, after, s, c, c.fields);
    forall k: Kind, x: Option<NotionId> ensures ReadRemote(after, c, k, x) == ReadRemote(w, c, k, x) {
    }
  }

  lemma OtherLocalReads(w: World, after: World, s: Iri, conn: Connection, c: Config, ch: Change, subject: Option<Iri>)
    requires OnlyLocal(w, after, s) && subject != Some(s)
    ensures ReadLocal(after, conn, c, ch, subject) == ReadLocal(w, conn, c, ch, subject)
  {
    if subject.Some? {
      assert Read(after, subject.value) == Read(w, subject.value);
    }
  }

  /** A write to `s` can only add `s` itself to what a table query finds. */
  lemma MatchesAfterLocal(w: World, after: World, s: Iri, c: Config, property: Iri, value: Value)
    requires OnlyLocal(w, after, s)
    ensures forall t :: t in TableMatches(after, c, property, value) ==>
      t in TableMatches(w, c, property, value) || (t == s && Get(Read(after, s), property) == value && InTable(Read(after, s), c))
  {
    forall t | t in TableMatches(after, c, property, value) && t != s ensures t in TableMatches(w, c, property, value) {
      assert Read(after, t) == Read(w, t);
    }
  }

  // ----- What the effects of one change amount to -----

  lemma ProvidedOnly(w: World, request: Request, minted: NotionId)
    requires minted !in w.pages
    ensures match request
      case CreatePage(_, _) => OnlyRemote(w, Provided(w, request, minted), PageChange, minted)
      case UpdatePage(page, _) => OnlyRemote(w, Provided(w, request, minted), PageChange, page)
      case RenameProperty(property, _) => OnlyRemote(w, Provided(w, request, minted), SchemaChange, property)
      case UpdateView(view, _) => OnlyRemote(w, Provided(w, request, minted), ViewChange, view)
  {
  }

  function Target(cursor: Cursor, minted: Iri): Iri {
    if cursor.subject.Some? then cursor.subject.value else minted
  }

  /** The row the local write leaves behind. */
  function RowAfter(w: World, c: Config, cursor: Cursor, patch: RowPatch): Row {
    if cursor.subject.Some? then Remove(Read(w, cursor.subject.value) + patch.put, patch.remove)
    else map[Parent := Link(c.table), IsA := Links([c.rowClass])] + patch.put
  }

  function IntentRow(w: World, intent: Intent): Row {
    match intent
    case SetIntent(subject, put) => Read(w, subject) + put
    case RemoveIntent(subject, properties) => Remove(Read(w, subject), properties)
    case CreateIntent(parent, isA, put) => map[Parent := Link(parent), IsA := Links(isA)] + put
  }

  lemma IntentLeaves(w: World, intent: Intent, minted: Iri)
    ensures OnlyLocal(w, Applied(w, intent, minted), IntentSubject(intent, minted))
    ensures Read(Applied(w, intent, minted), IntentSubject(intent, minted)) == IntentRow(w, intent)
  {
    var row := IntentRow(w, intent);
    var s := IntentSubject(intent, minted);
    assert Applied(w, intent, minted) == w.(resources := w.resources[s := row]);
  }

  lemma RemoveNothing(row: Row)
    ensures Remove(row, []) == row
  {
  }

  lemma SetLeaves(w: World, s: Iri, put: Row, remove: seq<Iri>, minted: Iri)
    ensures var intents := [SetIntent(s, put)] + (if remove != [] then [RemoveIntent(s, remove)] else []);
      var after := AllApplied(w, intents, minted);
      OnlyLocal(w, after, s) && Read(after, s) == Remove(Read(w, s) + put, remove)
  {
    var first := Applied(w, SetIntent(s, put), minted);
    IntentLeaves(w, SetIntent(s, put), minted);
    if remove == [] {
      assert [SetIntent(s, put)] + [] == [SetIntent(s, put)];
      OneApplied(w, SetIntent(s, put), minted);
      RemoveNothing(Read(w, s) + put);
    } else {
      assert [SetIntent(s, put)] + [RemoveIntent(s, remove)] == [SetIntent(s, put), RemoveIntent(s, remove)];
      TwoApplied(w, SetIntent(s, put), RemoveIntent(s, remove), minted);
      IntentLeaves(first, RemoveIntent(s, remove), minted);
    }
  }

  lemma IntentsLeave(w: World, c: Config, cursor: Cursor, patch: RowPatch, minted: Iri)
    requires minted !in w.resources
    ensures var after := AllApplied(w, Intents(c, cursor, patch), minted);
      var s := Target(cursor, minted);
      && OnlyLocal(w, after, s)
      && Read(after, s) == RowAfter(w, c, cursor, patch)
      && AtomicReceiptOf(Intents(c, cursor, patch), minted) == AtomicReceipt(Some(s))
  {
    if cursor.subject.None? {
      OneApplied(w, CreateIntent(c.table, [c.rowClass], patch.put), minted);
      IntentLeaves(w, CreateIntent(c.table, [c.rowClass], patch.put), minted);
    } else {
      SetLeaves(w, cursor.subject.value, patch.put, patch.remove, minted);
    }
  }

  lemma OneApplied(w: World, i: Intent, minted: Iri)
    ensures AllApplied(w, [i], minted) == Applied(w, i, minted)
  {
    assert [i][1..] == [];
  }

  lemma TwoApplied(w: World, i: Intent, j: Intent, minted: Iri)
    ensures AllApplied(w, [i, j], minted) == Applied(Applied(w, i, minted), j, minted)
  {
    assert [i, j][1..] == [j];
    OneApplied(Applied(w, i, minted), j, minted);
  }

  lemma RowAfterCarries(w: World, c: Config, cursor: Cursor, patch: RowPatch)
    requires forall p :: p in patch.put ==> p !in patch.remove
    requires cursor.subject.None? ==> Parent !in patch.remove && IsA !in patch.remove && forall p :: p in patch.remove ==> p !in patch.put
    ensures Carries(RowAfter(w, c, cursor, patch), patch)
  {
  }
}
