/** With no outside edits, an approved sync never fails: every provider write and
    every Atomic write lands, and each change ends with both sides at `desired`. */
module NotionConvergence {
  import opened Wrappers
  import opened Ordering
  import opened TextChunks
  import opened NotionModel
  import opened NotionRows
  import opened NotionViews
  import opened NotionSync
  import opened NotionSafety
  import opened NotionHost
  import opened NotionFrames

  // ----- Hypotheses -----

  /** A mapping set up without clashes. */
  ghost predicate GoodConfig(c: Config) {
    && AcceptedConfig(c) && GoodFields(c) && OptionsOnSelects(c) && TruthyProperties(c)
    && TitleField(c.fields).Some?
    && c.identity !in {Name, Parent, IsA, LocalId, ViewKind, Columns, Group}
    && c.arrival !in {Name, Parent, IsA, LocalId, ViewKind, Columns, Group, c.identity}
    && (forall i :: 0 <= i < |c.views| ==> c.views[i].kind in KNOWN_KINDS)
    && (forall i :: 0 <= i < |c.fields| ==> c.fields[i].id != "")
  }

  /** What a change must look like for both writes to be possible. */
  ghost predicate Settable(c: Config, ch: Change) {
    && (ch.id.Some? <==> ch.remote.Some?)
    && (ch.subject.Some? <==> ch.local.Some?)
    && match ch.kind
       case PageChange =>
         && (ch.id.Some? || ch.subject.Some?)
         && Canonical(ch.desired, c)
         && PagePatchOf(ch.desired, ch.remote, c).Ok?
       case SchemaChange => ch.id.Some? && ch.subject.Some? && Get(ch.desired, "name").Text? && ch.desired == map["name" := Get(ch.desired, "name")]
       case ViewChange => ch.id.Some? && ch.subject.Some? && SettableView(c, ch)
  }

  ghost predicate SettableView(c: Config, ch: Change) {
    && BindingOf(c.views, ch.id).Some? && BindingOf(c.views, ch.id).value.kind in KNOWN_KINDS
    && IsViewProjection(ch.desired)
    && ch.desired["name"].Text?
    && ch.desired["kind"] == Id(BindingOf(c.views, ch.id).value.kind)
    && ch.desired["columns"].ids != [] && AllMapped(ch.desired["columns"].ids, c)
    && ch.desired["group"] != Id("") && (ch.desired["group"].Id? ==> Groupable(ch.desired["group"].id, c))
    && ch.remote.Some? && Get(ch.remote.value, "kind") == ch.desired["kind"]
    && (Get(ch.remote.value, "group") == ch.desired["group"] || (ch.desired["group"].Id? && ch.desired["kind"] == Id("board")))
  }

  // ----- Provider writes land -----

  lemma PageLands(w: World, c: Config, ch: Change, minted: NotionId)
    requires GoodConfig(c) && Settable(c, ch) && ch.kind == PageChange
    requires ch.id.Some? ==> ReadRemote(w, c, PageChange, ch.id) == Ok(ch.remote.value)
    ensures var write := ProviderWrite(w, c, ch);
      && write.Ok?
      && (write.value.None? ==> ch.id.Some? && ReadRemote(w, c, PageChange, ch.id) == Ok(ch.desired))
      && (write.value.Some? && ch.id.Some? ==>
            && write.value.value.UpdatePage? && write.value.value.page == ch.id.value
            && ReadRemote(Provided(w, write.value.value, minted), c, PageChange, ch.id) == Ok(ch.desired))
      && (write.value.Some? && ch.id.None? ==>
            && write.value.value.CreatePage?
            && PageProjection(Provided(w, write.value.value, minted).pages[minted], c) == Ok(ch.desired))
  {
    if ch.id.Some? {
      PageUpdateLands(w.pages[ch.id.value], c, ch);
    } else {
      PageCreateLands(c, ch);
    }
  }

  lemma PageUpdateLands(page: Page, c: Config, ch: Change)
    requires GoodConfig(c)
    requires Canonical(ch.desired, c) && PagePatchOf(ch.desired, ch.remote, c).Ok?
    requires ch.remote.Some? && PageProjection(page, c) == Ok(ch.remote.value)
    ensures var patch := PagePatchOf(ch.desired, ch.remote, c).value;
      && PageProjection(Patched(page, patch), c) == Ok(ch.desired)
      && (patch == map[] ==> PageProjection(page, c) == Ok(ch.desired))
  {
    var patch := PagePatchOf(ch.desired, ch.remote, c).value;
    PageRoundTripExact(page, ch.desired, ch.remote, c);
    if patch == map[] {
      assert page.properties + map[] == page.properties;
      assert Patched(page, patch) == page;
    }
  }

  lemma PageCreateLands(c: Config, ch: Change)
    requires GoodConfig(c)
    requires Canonical(ch.desired, c) && PagePatchOf(ch.desired, None, c).Ok?
    ensures PageProjection(Page(true, c.dataSource, false, false, PagePatchOf(ch.desired, None, c).value), c) == Ok(ch.desired)
  {
    var patch := PagePatchOf(ch.desired, None, c).value;
    var blank := Page(true, c.dataSource, false, false, map[]);
    assert PageReachable(blank, c);
    assert DistinctIds(c.fields) && ch.desired.Keys == (set i | 0 <= i < |c.fields| :: c.fields[i].id);
    hide *;
    PageRoundTripExact(blank, ch.desired, None, c);
    BlankPatched(c, patch);
  }

  lemma BlankPatched(c: Config, patch: map<NotionId, PageProp>)
    ensures Patched(Page(true, c.dataSource, false, false, map[]), patch) == Page(true, c.dataSource, false, false, patch)
  {
    assert map[] + patch == patch;
  }

  lemma SchemaLands(w: World, c: Config, ch: Change, minted: NotionId)
    requires Settable(c, ch) && ch.kind == SchemaChange
    requires ReadRemote(w, c, SchemaChange, ch.id) == Ok(ch.remote.value)
    ensures var write := ProviderWrite(w, c, ch);
      && write.Ok?
      && (write.value.None? ==> ReadRemote(w, c, SchemaChange, ch.id) == Ok(ch.desired))
      && (write.value.Some? ==>
            && write.value.value.RenameProperty? && write.value.value.property == ch.id.value
            && ReadRemote(Provided(w, write.value.value, minted), c, SchemaChange, ch.id) == Ok(ch.desired))
  {
    var write := ProviderWrite(w, c, ch);
    if write.value.Some? {
      var after := Provided(w, write.value.value, minted);
      assert OnlyRemote(w, after, SchemaChange, ch.id.value);
      RemoteFrame(w, after, SchemaChange, ch.id.value, c);
      assert after.schema.properties[ch.id.value].name == ch.desired["name"].text;
    }
  }

  lemma ViewLands(w: World, c: Config, ch: Change, minted: NotionId)
    requires Settable(c, ch) && ch.kind == ViewChange
    requires ReadRemote(w, c, ViewChange, ch.id) == Ok(ch.remote.value)
    ensures var write := ProviderWrite(w, c, ch);
      && write.Ok?
      && (write.value.None? ==> ReadRemote(w, c, ViewChange, ch.id) == Ok(ch.desired))
      && (write.value.Some? ==>
            && write.value.value.UpdateView? && write.value.value.view == ch.id.value
            && ReadRemote(Provided(w, write.value.value, minted), c, ViewChange, ch.id) == Ok(ch.desired))
  {
    var view := w.views[ch.id.value];
    ViewPatchGoesThrough(view, c, ch);
    ViewRoundTrip(view, ch.desired, c);
    var patch := RemoteViewPatch(ch.desired, view, c).value;
    if patch == ViewPatch(None, None) {
      assert PatchedView(view, patch) == view;
    }
  }

  lemma ViewPatchGoesThrough(view: View, c: Config, ch: Change)
    requires SettableView(c, ch)
    requires RemoteViewProjection(view, c) == Ok(ch.remote.value)
    ensures RemoteViewPatch(ch.desired, view, c).Ok?
    ensures ch.desired["kind"] == Id(view.kind)
  {
    var cfg := Configuration(view);
    ViewProjectionParts(Text(if view.name.Some? then view.name.value else []), ColumnsOf(cfg, c), GroupOf(cfg), view.kind);
  }

  // ----- Atomic writes land -----

  ghost predicate OwnsIdentity(w: World, c: Config, id: Option<NotionId>, subject: Option<Iri>) {
    && (id.Some? ==>
          && (forall s :: s in TableMatches(w, c, c.identity, Id(id.value)) ==> Some(s) == subject)
          && (forall s :: s in TableMatches(w, c, LocalId, SourceId(c, id.value)) ==> Some(s) == subject))
    && (subject.Some? ==>
          Get(Read(w, subject.value), LocalId).Missing? || (id.Some? && Get(Read(w, subject.value), LocalId) == SourceId(c, id.value)))
  }

  /** A page's row carries the page id, the import identity and the title in both homes. */
  ghost predicate Marked(w: World, c: Config, ch: Change, id: Option<NotionId>, subject: Option<Iri>)
    requires TitleField(c.fields).Some?
  {
    && id.Some? && subject.Some?
    && var row, title := Read(w, subject.value), TitleField(c.fields).value;
       && Get(row, c.identity) == Id(id.value)
       && Get(row, LocalId) == SourceId(c, id.value)
       && Get(row, Name) == Get(ch.desired, title.id)
       && Get(row, title.property) == Get(ch.desired, title.id)
  }

  /** Both sides show `desired`, and a page row is marked as this page's. */
  ghost predicate Finished(w: World, conn: Connection, c: Config, ch: Change, id: Option<NotionId>, subject: Option<Iri>)
    requires TitleField(c.fields).Some?
  {
    && id.Some? && subject.Some?
    && ReadLocal(w, conn, c, ch, subject) == Ok(Some(ch.desired))
    && ReadRemote(w, c, ch.kind, id) == Ok(ch.desired)
    && (ch.kind == PageChange ==> Marked(w, c, ch, id, subject) && OwnsIdentity(w, c, id, subject))
  }

  lemma PagePatchValid(c: Config, ch: Change)
    requires GoodConfig(c) && Settable(c, ch) && ch.kind == PageChange
    ensures RowPatchOf(ch.desired, c).Ok?
  {
    CollectOk(c.fields, PatchPageField(ch.desired, ch.remote));
    WriteFieldsOk(ch.desired, c.fields);
    forall i | 0 <= i < |c.fields| ensures Valid(c.fields[i], Get(ch.desired, c.fields[i].id)) {
      assert PatchPageField(ch.desired, ch.remote)(c.fields[i]).Ok?;
    }
  }

  /** The full page write: the mapped fields plus identity, import identity and arrival mark. */
  function Marks(c: Config, put: Row, id: NotionId, arrived: bool): Row {
    var marked := (put + map[LocalId := SourceId(c, id)])[c.identity := Id(id)];
    if arrived then marked[c.arrival := Id("remote")] else marked
  }

  lemma PagePatchIs(w: World, conn: Connection, c: Config, ch: Change, cursor: Cursor)
    requires GoodConfig(c) && Settable(c, ch) && ch.kind == PageChange
    requires cursor.id.Some? && OwnsIdentity(w, c, cursor.id, cursor.subject)
    ensures RowPatchOf(ch.desired, c).Ok?
    ensures var fields := RowPatchOf(ch.desired, c).value;
      LocalPatch(w, conn, c, ch, cursor)
        == Ok(RowPatch(Marks(c, fields.put, cursor.id.value, cursor.subject.None? && conn.revision > 0), fields.remove))
  {
    PagePatchValid(c, ch);
    assert ClaimImportIdentity(w, c, SourceId(c, cursor.id.value), cursor.subject) == Ok(map[LocalId := SourceId(c, cursor.id.value)]);
  }

  /** The marks disturb no mapped field. */
  lemma MarksShape(c: Config, fields: RowPatch, id: NotionId, arrived: bool)
    requires c.identity !in {Name, Parent, IsA, LocalId} && c.arrival !in {Name, Parent, IsA, LocalId, c.identity}
    requires forall p :: p in fields.put || p in fields.remove ==> p !in {Parent, IsA, LocalId, c.identity, c.arrival} || p == Name
    requires forall p :: p in fields.put ==> p !in fields.remove
    ensures var put := Marks(c, fields.put, id, arrived);
      && (forall p :: p in put ==> p !in fields.remove && p != Parent && p != IsA)
      && (forall p :: p in fields.put ==> p in put && put[p] == fields.put[p])
      && c.identity in put && put[c.identity] == Id(id)
      && LocalId in put && put[LocalId] == SourceId(c, id)
  {
  }

  lemma PagePatchShape(w: World, conn: Connection, c: Config, ch: Change, cursor: Cursor)
    requires GoodConfig(c) && Settable(c, ch) && ch.kind == PageChange
    requires cursor.id.Some? && OwnsIdentity(w, c, cursor.id, cursor.subject)
    ensures RowPatchOf(ch.desired, c).Ok?
    ensures LocalPatch(w, conn, c, ch, cursor).Ok?
    ensures var patch, fields := LocalPatch(w, conn, c, ch, cursor).value, RowPatchOf(ch.desired, c).value;
      && (forall p :: p in patch.put ==> p !in patch.remove && p != Parent && p != IsA)
      && Parent !in patch.remove && IsA !in patch.remove && c.identity !in patch.remove && LocalId !in patch.remove
      && c.identity in patch.put && patch.put[c.identity] == Id(cursor.id.value)
      && LocalId in patch.put && patch.put[LocalId] == SourceId(c, cursor.id.value)
      && (forall p :: p in fields.put ==> p in patch.put && patch.put[p] == fields.put[p])
      && patch.remove == fields.remove
  {
    PagePatchIs(w, conn, c, ch, cursor);
    var fields := RowPatchOf(ch.desired, c).value;
    PatchedRowCarries(map[], ch.desired, c);
    MarksShape(c, fields, cursor.id.value, cursor.subject.None? && conn.revision > 0);
  }

  lemma SettablePage(c: Config, ch: Change)
    requires Settable(c, ch) && ch.kind == PageChange
    ensures Canonical(ch.desired, c)
  {
  }

  lemma PageRowLands(w: World, after: World, conn: Connection, c: Config, ch: Change, cursor: Cursor, s: Iri)
    requires GoodConfig(c) && Settable(c, ch) && ch.kind == PageChange
    requires cursor.id.Some? && OwnsIdentity(w, c, cursor.id, cursor.subject)
    requires LocalPatch(w, conn, c, ch, cursor).Ok?
    requires Read(after, s) == RowAfter(w, c, cursor, LocalPatch(w, conn, c, ch, cursor).value)
    requires cursor.subject.Some? ==> cursor.subject.value == s && InTable(Read(w, s), c) && HasClass(Read(w, s), c)
    ensures ReadLocal(after, conn, c, ch, Some(s)) == Ok(Some(ch.desired))
    ensures Marked(after, c, ch, cursor.id, Some(s))
    ensures InTable(Read(after, s), c)
  {
    hide LocalPatch, OwnsIdentity, Canonical, Settable, RowProjection, GoodFields, OptionsOnSelects, RowPatchOf, SourceId;
    assert Canonical(ch.desired, c) by {
      SettablePage(c, ch);
    }
    PagePatchShape(w, conn, c, ch, cursor);
    var patch := LocalPatch(w, conn, c, ch, cursor).value;
    RowAfterCarries(w, c, cursor, patch);
    PageRowShows(Read(after, s), c, ch, patch);
    var row := Read(after, s);
    if cursor.subject.Some? {
      assert Get(row, Parent) == Get(Read(w, s), Parent) && Get(row, IsA) == Get(Read(w, s), IsA);
    }
    var identity := Get(row, c.identity);
    RowRoundTripExactly(row, c, ch, if identity.Id? then BaselineOf(conn, RecordKey(PageChange, identity.id)) else None);
  }

  lemma PageRowShows(row: Row, c: Config, ch: Change, patch: RowPatch)
    requires GoodConfig(c) && RowPatchOf(ch.desired, c).Ok?
    requires Carries(row, patch)
    requires var fields := RowPatchOf(ch.desired, c).value;
      && (forall p :: p in fields.put ==> p in patch.put && patch.put[p] == fields.put[p])
      && patch.remove == fields.remove
    ensures Carries(row, RowPatchOf(ch.desired, c).value)
    ensures var title := TitleField(c.fields).value;
      Get(row, Name) == Get(ch.desired, title.id) && Get(row, title.property) == Get(ch.desired, title.id)
  {
    TitleLands(row, c, ch);
  }

  lemma RowRoundTripExactly(row: Row, c: Config, ch: Change, baseline: Option<Projection>)
    requires GoodConfig(c) && Canonical(ch.desired, c) && RowPatchOf(ch.desired, c).Ok?
    requires Carries(row, RowPatchOf(ch.desired, c).value)
    requires InTable(row, c) && HasClass(row, c)
    ensures RowProjection(row, c, baseline) == Ok(ch.desired)
  {
    RowRoundTrip(row, ch.desired, baseline, c);
    CanonicalIsSettled(ch.desired, c);
  }

  lemma TitleLands(row: Row, c: Config, ch: Change)
    requires GoodConfig(c) && RowPatchOf(ch.desired, c).Ok?
    requires Carries(row, RowPatchOf(ch.desired, c).value)
    ensures var title := TitleField(c.fields).value;
      Get(row, Name) == Get(ch.desired, title.id) && Get(row, title.property) == Get(ch.desired, title.id)
  {
    TitleFieldFound(c.fields);
    var title := TitleField(c.fields).value;
    var i :| 0 <= i < |c.fields| && c.fields[i] == title;
    PatchOfField(RowPatchOf(ch.desired, c).value, ch.desired, c, i);
  }

  lemma ViewRowFacts(w: World, conn: Connection, c: Config, ch: Change, s: Iri)
    requires GoodConfig(c) && Settable(c, ch) && ch.kind == ViewChange
    requires ReadLocal(w, conn, c, ch, Some(s)).Ok?
    ensures DistinctProperties(c.fields) && TruthyProperties(c)
    ensures IsViewProjection(ch.desired) && ch.desired["columns"].ids != [] && ch.desired["group"] != Id("")
    ensures BindingOf(c.views, ch.id).Some? && BindingOf(c.views, ch.id).value.kind in KNOWN_KINDS
    ensures ch.desired["kind"] == Id(BindingOf(c.views, ch.id).value.kind)
    ensures !Restricted(Read(w, s))
  {
    hide OptionsOnSelects, TruthyProperties, AllMapped, Groupable;
  }

  /** The patch touches no filter and no sort, and the row carries it. */
  lemma StillUnrestricted(w: World, after: World, c: Config, ch: Change, cursor: Cursor, s: Iri)
    requires ViewRowPatch(ch.desired, c).Ok? && !Restricted(Read(w, s)) && cursor.subject == Some(s)
    requires Read(after, s) == RowAfter(w, c, cursor, ViewRowPatch(ch.desired, c).value)
    ensures !Restricted(Read(after, s)) && Carries(Read(after, s), ViewRowPatch(ch.desired, c).value)
  {
    var patch := ViewRowPatch(ch.desired, c).value;
    RowAfterCarries(w, c, cursor, patch);
    assert ViewFilters !in patch.put && ViewSortBy !in patch.put && ViewFilters !in patch.remove && ViewSortBy !in patch.remove;
    hide ViewRowPatch;
  }

  lemma ViewRowLands(w: World, after: World, conn: Connection, c: Config, ch: Change, cursor: Cursor, s: Iri)
    requires GoodConfig(c) && Settable(c, ch) && ch.kind == ViewChange
    requires cursor.subject == Some(s)
    requires ReadLocal(w, conn, c, ch, Some(s)).Ok?
    requires ViewRowPatch(ch.desired, c).Ok?
    requires Read(after, s) == RowAfter(w, c, cursor, ViewRowPatch(ch.desired, c).value)
    ensures ReadLocal(after, conn, c, ch, Some(s)) == Ok(Some(ch.desired))
  {
    hide GoodConfig, Settable, RowAfter, ViewRowPatch, LocalViewProjection, Restricted, IsViewProjection, BindingOf, TruthyProperties, DistinctProperties;
    ViewRowFacts(w, conn, c, ch, s);
    StillUnrestricted(w, after, c, ch, cursor, s);
    LocalViewRoundTrip(Read(after, s), ch.desired, c, BindingOf(c.views, ch.id).value);
  }

  lemma ViewRowPatchExists(c: Config, ch: Change)
    requires SettableView(c, ch)
    ensures ViewRowPatch(ch.desired, c).Ok?
    ensures forall p :: p in ViewRowPatch(ch.desired, c).value.put || p in ViewRowPatch(ch.desired, c).value.remove ==> p in {Name, ViewKind, Columns, Group}
    ensures forall p :: p in ViewRowPatch(ch.desired, c).value.put ==> p !in ViewRowPatch(ch.desired, c).value.remove
  {
    MappedHaveProperties(ch.desired["columns"].ids, c);
  }

  /** Everything the Atomic write of one change achieves. */
  lemma LocalWriteLands(w: World, conn: Connection, c: Config, ch: Change, cursor: Cursor, minted: Iri)
    requires GoodConfig(c) && Settable(c, ch)
    requires minted !in w.resources
    requires cursor.id.Some?
    requires ReadLocal(w, conn, c, ch, cursor.subject).Ok?
    requires ch.kind == PageChange ==> OwnsIdentity(w, c, cursor.id, cursor.subject)
    requires ch.kind != PageChange ==> cursor.subject.Some?
    ensures LocalPatch(w, conn, c, ch, cursor).Ok?
    ensures var after := AllApplied(w, Intents(c, cursor, LocalPatch(w, conn, c, ch, cursor).value), minted);
      var s := Target(cursor, minted);
      && OnlyLocal(w, after, s)
      && ReadLocal(after, conn, c, ch, Some(s)) == Ok(Some(ch.desired))
      && (ch.kind == PageChange ==> Marked(after, c, ch, cursor.id, Some(s)) && InTable(Read(after, s), c))
      && (ch.kind != PageChange ==> OtherwiseAlike(Read(w, s), Read(after, s), c))
  {
    hide *;
    LocalPatchPossible(w, conn, c, ch, cursor);
    var patch := LocalPatch(w, conn, c, ch, cursor).value;
    var after, s := AllApplied(w, Intents(c, cursor, patch), minted), Target(cursor, minted);
    IntentsLeave(w, c, cursor, patch, minted);
    TargetIs(cursor, minted);
    match ch.kind {
      case PageChange => PageWriteLands(w, after, conn, c, ch, cursor, s);
      case SchemaChange => SchemaWriteLands(w, after, conn, c, ch, cursor, s);
      case ViewChange => ViewWriteLands(w, after, conn, c, ch, cursor, s);
    }
  }

  lemma LocalPatchPossible(w: World, conn: Connection, c: Config, ch: Change, cursor: Cursor)
    requires GoodConfig(c) && Settable(c, ch) && cursor.id.Some?
    requires ch.kind == PageChange ==> OwnsIdentity(w, c, cursor.id, cursor.subject)
    ensures LocalPatch(w, conn, c, ch, cursor).Ok?
  {
    match ch.kind {
      case PageChange => PagePatchShape(w, conn, c, ch, cursor);
      case SchemaChange =>
      case ViewChange => ViewRowPatchExists(c, ch);
    }
  }

  lemma TargetIs(cursor: Cursor, minted: Iri)
    ensures cursor.subject.Some? ==> Target(cursor, minted) == cursor.subject.value
  {
  }

  lemma PageWriteLands(w: World, after: World, conn: Connection, c: Config, ch: Change, cursor: Cursor, s: Iri)
    requires GoodConfig(c) && Settable(c, ch) && ch.kind == PageChange
    requires cursor.id.Some? && OwnsIdentity(w, c, cursor.id, cursor.subject)
    requires ReadLocal(w, conn, c, ch, cursor.subject).Ok? && (cursor.subject.Some? ==> cursor.subject.value == s)
    requires LocalPatch(w, conn, c, ch, cursor).Ok?
    requires Read(after, s) == RowAfter(w, c, cursor, LocalPatch(w, conn, c, ch, cursor).value)
    ensures ReadLocal(after, conn, c, ch, Some(s)) == Ok(Some(ch.desired))
    ensures TitleField(c.fields).Some? && Marked(after, c, ch, cursor.id, Some(s)) && InTable(Read(after, s), c)
  {
    assert cursor.subject.Some? ==> InTable(Read(w, s), c) && HasClass(Read(w, s), c) by {
      hide GoodConfig, Settable, OwnsIdentity, LocalPatch, RowAfter, RowProjection;
    }
    assert TitleField(c.fields).Some?;
    hide *;
    PageRowLands(w, after, conn, c, ch, cursor, s);
  }

  lemma SchemaWriteLands(w: World, after: World, conn: Connection, c: Config, ch: Change, cursor: Cursor, s: Iri)
    requires Settable(c, ch) && ch.kind == SchemaChange && cursor.subject == Some(s)
    requires LocalPatch(w, conn, c, ch, cursor).Ok?
    requires Read(after, s) == RowAfter(w, c, cursor, LocalPatch(w, conn, c, ch, cursor).value)
    requires GoodConfig(c)
    ensures ReadLocal(after, conn, c, ch, Some(s)) == Ok(Some(ch.desired))
    ensures OtherwiseAlike(Read(w, s), Read(after, s), c)
  {
    var row := Read(after, s);
    assert Get(row, Name) == Get(ch.desired, "name") && forall p :: p != Name ==> Get(row, p) == Get(Read(w, s), p);
  }

  lemma ViewWriteLands(w: World, after: World, conn: Connection, c: Config, ch: Change, cursor: Cursor, s: Iri)
    requires GoodConfig(c) && Settable(c, ch) && ch.kind == ViewChange && cursor.subject == Some(s)
    requires ReadLocal(w, conn, c, ch, cursor.subject).Ok? && LocalPatch(w, conn, c, ch, cursor).Ok?
    requires Read(after, s) == RowAfter(w, c, cursor, LocalPatch(w, conn, c, ch, cursor).value)
    ensures ReadLocal(after, conn, c, ch, Some(s)) == Ok(Some(ch.desired))
    ensures OtherwiseAlike(Read(w, s), Read(after, s), c)
  {
    ViewRowPatchExists(c, ch);
    hide ViewRowPatch, ReadLocal, SettableView;
    ViewRowLands(w, after, conn, c, ch, cursor, s);
  }

  /** A row's place and identity, which no view or property write touches. */
  ghost predicate OtherwiseAlike(before: Row, row: Row, c: Config) {
    && Get(row, c.identity) == Get(before, c.identity)
    && Get(row, LocalId) == Get(before, LocalId)
    && Get(row, Parent) == Get(before, Parent)
  }

  // ----- What a page write leaves alone -----

  predicate MapsTo(c: Config, property: Iri) {
    exists i :: 0 <= i < |c.fields| && c.fields[i].property == property
  }

  lemma RowPatchTouches(desired: Projection, c: Config)
    requires GoodFields(c) && RowPatchOf(desired, c).Ok?
    ensures var patch := RowPatchOf(desired, c).value;
      forall q :: (q in patch.put || q in patch.remove) && q != Name ==> MapsTo(c, q)
  {
    WriteFieldsOk(desired, c.fields);
    hide WriteFields;
  }

  lemma NoOddMapping(c: Config)
    requires GoodConfig(c)
    ensures GoodFields(c)
    ensures c.arrival !in {Name, Parent, IsA, LocalId, c.identity} && c.identity !in {Name, Parent, IsA, LocalId}
    ensures !MapsTo(c, c.arrival) && !MapsTo(c, Parent) && !MapsTo(c, IsA)
  {
  }

  /** A page write touches the mapped properties, the name, the two identities and,
      on a row created by a later sync, the arrival mark; a new row is in the table
      and of its class. Everything else in the row stays. */
  lemma PageWriteTouches(w: World, conn: Connection, c: Config, ch: Change, cursor: Cursor, q: Iri)
    requires GoodConfig(c) && Settable(c, ch) && ch.kind == PageChange
    requires cursor.id.Some? && OwnsIdentity(w, c, cursor.id, cursor.subject)
    requires !MapsTo(c, q) && q !in {Name, LocalId, c.identity}
    ensures LocalPatch(w, conn, c, ch, cursor).Ok?
    ensures var row := RowAfter(w, c, cursor, LocalPatch(w, conn, c, ch, cursor).value);
      Get(row, q) ==
        if cursor.subject.Some? then Get(Read(w, cursor.subject.value), q)
        else if q == c.arrival && conn.revision > 0 then Id("remote")
        else if q == Parent then Link(c.table)
        else if q == IsA then Links([c.rowClass])
        else Missing
  {
    hide *;
    PagePatchIs(w, conn, c, ch, cursor);
    NoOddMapping(c);
    RowPatchTouches(ch.desired, c);
    var fields := RowPatchOf(ch.desired, c).value;
    UntouchedAt(w, c, cursor, fields, cursor.id.value, cursor.subject.None? && conn.revision > 0, q);
  }

  lemma UntouchedAt(w: World, c: Config, cursor: Cursor, fields: RowPatch, id: NotionId, arrived: bool, q: Iri)
    requires q !in fields.put && q !in fields.remove && q !in {LocalId, c.identity}
    requires c.arrival !in {Parent, IsA} && (arrived ==> cursor.subject.None?)
    ensures var row := RowAfter(w, c, cursor, RowPatch(Marks(c, fields.put, id, arrived), fields.remove));
      Get(row, q) ==
        if cursor.subject.Some? then Get(Read(w, cursor.subject.value), q)
        else if q == c.arrival && arrived then Id("remote")
        else if q == Parent then Link(c.table)
        else if q == IsA then Links([c.rowClass])
        else Missing
  {
  }
}
