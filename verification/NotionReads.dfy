/** What pages, rows and views show, told field by field: everything else is refused. */
module NotionReads {
  import opened Wrappers
  import opened Ordering
  import opened TextChunks
  import opened NotionModel
  import opened NotionRows
  import opened NotionViews
  import opened NotionSync

  // ----- Options -----

  /** The first choice with the id maps it to a tag that names something. */
  ghost predicate HasTag(f: Field, id: NotionId) {
    f.options.Some? && exists i :: FirstWithId(f.options.value, id, i) && f.options.value[i].tag != Other("")
  }

  predicate FirstWithId(choices: seq<Choice>, id: NotionId, i: int) {
    0 <= i < |choices| && choices[i].id == id && forall j :: 0 <= j < i ==> choices[j].id != id
  }

  predicate FirstWithTag(choices: seq<Choice>, tag: Iri, i: int) {
    0 <= i < |choices| && choices[i].tag == tag && forall j :: 0 <= j < i ==> choices[j].tag != tag
  }

  lemma {:induction false} TagFound(choices: seq<Choice>, id: NotionId)
    ensures forall i :: FirstWithId(choices, id, i) ==> TagOf(choices, id) == Some(choices[i].tag)
    ensures TagOf(choices, id).Some? ==> exists i :: FirstWithId(choices, id, i)
  {
    if choices != [] {
      if choices[0].id == id {
        assert FirstWithId(choices, id, 0);
      } else {
        TagFound(choices[1..], id);
        forall i | FirstWithId(choices, id, i) ensures TagOf(choices, id) == Some(choices[i].tag) {
          assert FirstWithId(choices[1..], id, i - 1);
        }
        if TagOf(choices, id).Some? {
          var i :| FirstWithId(choices[1..], id, i);
          assert FirstWithId(choices, id, i + 1);
        }
      }
    }
  }

  lemma {:induction false} ChoiceFound(choices: seq<Choice>, tag: Iri)
    ensures forall i :: FirstWithTag(choices, tag, i) ==> ChoiceOf(choices, tag) == Some(choices[i].id)
    ensures ChoiceOf(choices, tag).Some? ==> exists i :: FirstWithTag(choices, tag, i)
  {
    if choices != [] {
      if choices[0].tag == tag {
        assert FirstWithTag(choices, tag, 0);
      } else {
        ChoiceFound(choices[1..], tag);
        forall i | FirstWithTag(choices, tag, i) ensures ChoiceOf(choices, tag) == Some(choices[i].id) {
          assert FirstWithTag(choices[1..], tag, i - 1);
        }
        if ChoiceOf(choices, tag).Some? {
          var i :| FirstWithTag(choices[1..], tag, i);
          assert FirstWithTag(choices, tag, i + 1);
        }
      }
    }
  }

  lemma MappedHasTag(f: Field, id: NotionId)
    ensures Mapped(f, id) <==> HasTag(f, id)
  {
    if f.options.Some? {
      TagFound(f.options.value, id);
    }
    hide TagOf;
  }

  // ----- Pages -----

  /** A value fits the type of its field. */
  ghost predicate Fits(f: Field, v: Value) {
    match f.kind
    case Title | RichText => v.Text?
    case NumberField => v.Null? || v.Number?
    case Checkbox => v.Flag?
    case MultiSelect => v.Ids? && forall i :: 0 <= i < |v.ids| ==> HasTag(f, v.ids[i])
    case Select | Status => v.Null? || (v.Id? && HasTag(f, v.id))
    case Url | Email | Phone => v.Null? || v.Text?
  }

  lemma ValidFits(f: Field, v: Value)
    ensures Valid(f, v) <==> Fits(f, v)
  {
    if v.Id? {
      MappedHasTag(f, v.id);
    }
    if v.Ids? {
      forall i | 0 <= i < |v.ids| ensures Mapped(f, v.ids[i]) <==> HasTag(f, v.ids[i]) {
        MappedHasTag(f, v.ids[i]);
      }
    }
    hide Mapped, HasTag;
  }

  /** The page's property holds the value: texts part by part, selections by id, anything else as it is. */
  ghost predicate Holds(f: Field, payload: Payload, v: Value) {
    match f.kind
    case Title | RichText =>
      && payload.Parts? && (forall i :: 0 <= i < |payload.parts| ==> payload.parts[i].plain)
      && v == Text(Join(Contents(payload.parts)))
    case MultiSelect => payload.Options? && v.Ids? && Sorted(v.ids) && multiset(v.ids) == multiset(payload.chosen)
    case Select | Status => payload.OneOption? && v == if payload.one.Some? then Id(payload.one.value) else Null
    case NumberField => payload == Scalar(v)
    case Checkbox => payload == Scalar(v)
    case Url | Email | Phone => payload == Scalar(v)
  }

  lemma DecodedHolds(f: Field, payload: Payload, v: Value)
    ensures Decode(f, payload) == Ok(v) <==> Holds(f, payload, v)
  {
    if payload.Options? {
      SortSorts(payload.chosen);
      if v.Ids? && Sorted(v.ids) && multiset(v.ids) == multiset(payload.chosen) {
        SortedUnique(v.ids, Sort(payload.chosen));
      }
    }
    hide Sort, Sorted, Contents, Join;
  }

  ghost predicate ShowsOnPage(page: Page, f: Field, v: Value) {
    f.id in page.properties && page.properties[f.id].kind == Some(f.kind) && Holds(f, page.properties[f.id].payload, v) && Fits(f, v)
  }

  lemma PageFieldShows(page: Page, f: Field)
    ensures ReadPageField(page)(f).Ok? ==> ReadPageField(page)(f).value.Some?
    ensures forall v :: ReadPageField(page)(f) == Ok(Some(v)) <==> ShowsOnPage(page, f, v)
  {
    if f.id in page.properties {
      forall v ensures (Decode(f, page.properties[f.id].payload) == Ok(v) <==> Holds(f, page.properties[f.id].payload, v)) && (Valid(f, v) <==> Fits(f, v)) {
        DecodedHolds(f, page.properties[f.id].payload, v);
        ValidFits(f, v);
      }
    }
    hide Decode, Valid, Holds, Fits;
  }

  /** The projection has one value for each mapped field. */
  ghost predicate Covers(fields: seq<Field>, p: Projection) {
    && (forall i :: 0 <= i < |fields| ==> fields[i].id in p)
    && (forall id :: id in p ==> exists i :: 0 <= i < |fields| && fields[i].id == id)
  }

  lemma CollectsExactly(fields: seq<Field>, read: Field -> Result<Option<Value>>, p: Projection)
    requires DistinctIds(fields)
    requires forall i :: 0 <= i < |fields| ==> read(fields[i]).Ok? ==> read(fields[i]).value.Some?
    ensures Collect(fields, read) == Ok(p) <==> Covers(fields, p) && forall i :: 0 <= i < |fields| ==> read(fields[i]) == Ok(Some(p[fields[i].id]))
  {
    CollectOk(fields, read);
    if Covers(fields, p) && forall i :: 0 <= i < |fields| ==> read(fields[i]) == Ok(Some(p[fields[i].id])) {
      CollectedUnique(fields, read, p);
    }
    hide Collect;
  }

  /** A page is read exactly when it is a live page of the data source all of whose
      mapped properties have their type and a value that fits, and as those values. */
  lemma PageReadsExactly(page: Page, c: Config, p: Projection)
    requires DistinctIds(c.fields)
    ensures PageProjection(page, c) == Ok(p) <==>
      && page.isPage && page.dataSource == c.dataSource && !page.archived && !page.inTrash
      && Covers(c.fields, p) && forall i :: 0 <= i < |c.fields| ==> ShowsOnPage(page, c.fields[i], p[c.fields[i].id])
  {
    hide ReadPageField, ShowsOnPage, Collect, DistinctIds;
    forall i | 0 <= i < |c.fields|
      ensures ReadPageField(page)(c.fields[i]).Ok? ==> ReadPageField(page)(c.fields[i]).value.Some?
      ensures forall v :: ReadPageField(page)(c.fields[i]) == Ok(Some(v)) <==> ShowsOnPage(page, c.fields[i], v)
    {
      PageFieldShows(page, c.fields[i]);
    }
    CollectsExactly(c.fields, ReadPageField(page), p);
  }

  // ----- Page patches -----

  /** What is written for one value: plain parts of at most 2000 units, a hundred at
      most; ids as desired; anything else as it is. */
  ghost predicate Writes(f: Field, v: Value, prop: PageProp) {
    && prop.kind == Some(f.kind)
    && match f.kind
       case Title | RichText =>
         && prop.payload.Parts? && v == Text(Join(Contents(prop.payload.parts))) && |prop.payload.parts| <= 100
         && forall i :: 0 <= i < |prop.payload.parts| ==> prop.payload.parts[i].plain && 0 < |prop.payload.parts[i].content| <= 2000
       case MultiSelect => v.Ids? && prop.payload == Options(v.ids)
       case Select | Status => prop.payload == OneOption(if v.Id? then Some(v.id) else None)
       case NumberField => prop.payload == Scalar(v)
       case Checkbox => prop.payload == Scalar(v)
       case Url | Email | Phone => prop.payload == Scalar(v)
  }

  lemma EncodedWrites(f: Field, v: Value)
    requires Valid(f, v) && Encode(f, v).Ok?
    ensures Writes(f, v, PageProp(Some(f.kind), Encode(f, v).value))
  {
    if IsText(f.kind) {
      ChunksCover(v.text, 0);
      assert v.text[0..] == v.text;
      var parts := Encode(f, v).value.parts;
      assert Contents(parts) == Chunks(v.text);
    }
    hide ChunksFrom, Mapped, Join;
  }

  /** A page patch writes exactly the mapped values that differ from the previous ones. */
  lemma PatchWritesExactly(desired: Projection, previous: Option<Projection>, c: Config)
    requires DistinctIds(c.fields) && PagePatchOf(desired, previous, c).Ok?
    ensures var patch := PagePatchOf(desired, previous, c).value;
      && (forall id :: id in patch ==> exists i :: 0 <= i < |c.fields| && c.fields[i].id == id)
      && forall i :: 0 <= i < |c.fields| ==>
           var f := c.fields[i];
           && Fits(f, Get(desired, f.id))
           && (f.id in patch <==> previous.None? || Get(previous.value, f.id) != Get(desired, f.id))
           && (f.id in patch ==> Writes(f, Get(desired, f.id), patch[f.id]))
  {
    CollectOk(c.fields, PatchPageField(desired, previous));
    hide Collect, Valid, Encode, Fits, Writes, DistinctIds;
    forall i | 0 <= i < |c.fields|
      ensures Valid(c.fields[i], Get(desired, c.fields[i].id)) && Fits(c.fields[i], Get(desired, c.fields[i].id))
      ensures Encode(c.fields[i], Get(desired, c.fields[i].id)).Ok? ==>
        Writes(c.fields[i], Get(desired, c.fields[i].id), PageProp(Some(c.fields[i].kind), Encode(c.fields[i], Get(desired, c.fields[i].id)).value))
    {
      var f := c.fields[i];
      assert PatchPageField(desired, previous)(f).Ok?;
      ValidFits(f, Get(desired, f.id));
      if Encode(f, Get(desired, f.id)).Ok? {
        EncodedWrites(f, Get(desired, f.id));
      }
    }
  }

  // ----- Rows -----

  /** The stored value of a field. A title kept in a property of its own has a second
      home, the display name: where the two differ, the one that was changed since
      the last sync counts, and a row that changed both cannot be read. */
  predicate StoredAs(row: Row, f: Field, baseline: Option<Projection>, raw: Value) {
    var home, display := Get(row, f.property), Get(row, Name);
    if !f.kind.Title? || f.property == Name then raw == home
    else if home.Missing? then raw == display
    else if display.Missing? then raw == home
    else if home == display then raw == home
    else
      && baseline.Some?
      && if home == Get(baseline.value, f.id) then raw == display
         else display == Get(baseline.value, f.id) && raw == home
  }

  lemma TitleStored(row: Row, f: Field, baseline: Option<Projection>, raw: Value)
    ensures TitleValue(row, f, baseline) == Ok(raw) <==> StoredAs(row, f, baseline, raw)
  {
    hide Get;
  }

  ghost predicate StandsFor(choices: seq<Choice>, tag: Iri, id: NotionId) {
    id != "" && exists i :: FirstWithTag(choices, tag, i) && choices[i].id == id
  }

  /** The ids the tags stand for, one by one. */
  ghost predicate TagsAre(choices: seq<Choice>, tags: seq<Iri>, ids: seq<NotionId>) {
    |tags| == |ids| && forall k :: 0 <= k < |tags| ==> StandsFor(choices, tags[k], ids[k])
  }

  lemma ChoiceStands(choices: seq<Choice>, tag: Iri, id: NotionId)
    ensures ChoiceOf(choices, tag) == Some(id) && id != "" <==> StandsFor(choices, tag, id)
  {
    ChoiceFound(choices, tag);
    hide ChoiceOf, FirstWithTag;
  }

  lemma {:induction false} ChoiceIdsAre(choices: seq<Choice>, tags: seq<Iri>, ids: seq<NotionId>)
    ensures ChoiceIds(choices, tags) == Ok(ids) <==> TagsAre(choices, tags, ids)
    decreases |tags|
  {
    if tags != [] && ids != [] {
      ChoiceStands(choices, tags[0], ids[0]);
      hide StandsFor, ChoiceOf;
      ChoiceIdsAre(choices, tags[1..], ids[1..]);
      assert ids == [ids[0]] + ids[1..];
      TagsSplit(choices, tags, ids);
      if ChoiceIds(choices, tags) == Ok(ids) {
        assert ChoiceIds(choices, tags[1..]).value == ids[1..];
      }
    }
  }

  lemma TagsSplit(choices: seq<Choice>, tags: seq<Iri>, ids: seq<NotionId>)
    requires tags != [] && ids != []
    ensures TagsAre(choices, tags, ids) <==> StandsFor(choices, tags[0], ids[0]) && TagsAre(choices, tags[1..], ids[1..])
  {
    hide StandsFor;
    if StandsFor(choices, tags[0], ids[0]) && TagsAre(choices, tags[1..], ids[1..]) {
      forall k | 0 <= k < |tags| ensures StandsFor(choices, tags[k], ids[k]) {
        if k > 0 {
          assert StandsFor(choices, tags[1..][k - 1], ids[1..][k - 1]);
        }
      }
    }
  }

  /** The value a select field reads from the row: its tags' ids, sorted. */
  ghost predicate Selected(f: Field, raw: Value, v: Value)
    requires f.options.Some?
  {
    && (raw.Missing? || raw.Null? || raw.Links?)
    && exists ids :: TagsAre(f.options.value, if raw.Links? then raw.links else [], ids) && Picks(f, ids, v)
  }

  /** Several ids sorted, or at most one. */
  ghost predicate Picks(f: Field, ids: seq<NotionId>, v: Value) {
    if f.kind.MultiSelect? then v.Ids? && Sorted(v.ids) && multiset(v.ids) == multiset(ids)
    else |ids| <= 1 && v == if ids == [] then Null else Id(ids[0])
  }

  lemma SortedPick(f: Field, ids: seq<NotionId>, v: Value)
    ensures Picks(f, ids, v) <==>
      if f.kind.MultiSelect? then v == Ids(Sort(ids)) else |Sort(ids)| <= 1 && v == if Sort(ids) == [] then Null else Id(Sort(ids)[0])
  {
    SortSorts(ids);
    OneIsSorted(ids);
    if v.Ids? && Sorted(v.ids) && multiset(v.ids) == multiset(ids) {
      SortedUnique(v.ids, Sort(ids));
    }
    assert |Sort(ids)| == |ids|;
    hide Sort, Sorted;
  }

  /** A missing text is empty, a missing checkbox is off, anything else missing is null. */
  predicate Plain(f: Field, raw: Value, v: Value) {
    if !raw.Missing? && !raw.Null? then v == raw
    else v == if f.kind.Checkbox? then Flag(false) else if f.kind.Title? || f.kind.RichText? then Text([]) else Null
  }

  ghost predicate ShowsInRow(row: Row, f: Field, baseline: Option<Projection>, v: Value) {
    Fits(f, v) && exists raw :: StoredAs(row, f, baseline, raw) && Becomes(f, raw, v)
  }

  lemma SelectedIs(f: Field, raw: Value, v: Value)
    requires f.options.Some?
    ensures SelectValue(f, raw) == Ok(v) <==> Selected(f, raw, v)
  {
    var tags := if raw.Links? then raw.links else [];
    hide TagsAre, Picks, Sort, ChoiceIds;
    forall ids ensures ChoiceIds(f.options.value, tags) == Ok(ids) <==> TagsAre(f.options.value, tags, ids) {
      ChoiceIdsAre(f.options.value, tags, ids);
    }
    if ChoiceIds(f.options.value, tags).Ok? {
      SortedPick(f, ChoiceIds(f.options.value, tags).value, v);
    }
  }

  lemma OneIsSorted(s: seq<string>)
    ensures |s| == 1 ==> Sort(s) == s
  {
    if |s| == 1 {
      SortFixpoint(s);
    }
  }

  /** How the stored value becomes the read one. */
  ghost predicate Becomes(f: Field, raw: Value, v: Value) {
    if f.options.Some? then Selected(f, raw, v) else Plain(f, raw, v)
  }

  lemma RowFieldIs(row: Row, f: Field, baseline: Option<Projection>, raw: Value, v: Value)
    requires StoredAs(row, f, baseline, raw)
    ensures ReadRowField(row, baseline)(f) == Ok(Some(v)) <==> Becomes(f, raw, v) && Fits(f, v)
  {
    TitleStored(row, f, baseline, raw);
    ValidFits(f, v);
    if f.options.Some? {
      SelectedIs(f, raw, v);
    }
    hide TitleValue, SelectValue, Selected, StoredAs, Valid, Fits;
  }

  lemma RowFieldShows(row: Row, f: Field, baseline: Option<Projection>, v: Value)
    ensures ReadRowField(row, baseline)(f).Ok? ==> ReadRowField(row, baseline)(f).value.Some?
    ensures ReadRowField(row, baseline)(f) == Ok(Some(v)) <==> ShowsInRow(row, f, baseline, v)
  {
    hide TitleValue, SelectValue, Becomes, StoredAs, Valid, Fits;
    if ReadRowField(row, baseline)(f).Ok? {
      var raw := TitleValue(row, f, baseline).value;
      TitleStored(row, f, baseline, raw);
      RowFieldIs(row, f, baseline, raw, v);
    }
    forall raw | StoredAs(row, f, baseline, raw) && Becomes(f, raw, v) && Fits(f, v) ensures ReadRowField(row, baseline)(f) == Ok(Some(v)) {
      RowFieldIs(row, f, baseline, raw, v);
    }
  }

  /** A row is read exactly when it is a row of the table whose mapped properties
      hold values that fit, and as those values. */
  lemma RowReadsExactly(row: Row, c: Config, baseline: Option<Projection>, p: Projection)
    requires DistinctIds(c.fields)
    ensures RowProjection(row, c, baseline) == Ok(p) <==>
      && Get(row, Parent) == Link(c.table) && Get(row, IsA).Links? && c.rowClass in row[IsA].links
      && Covers(c.fields, p) && forall i :: 0 <= i < |c.fields| ==> ShowsInRow(row, c.fields[i], baseline, p[c.fields[i].id])
  {
    hide ReadRowField, ShowsInRow, Collect, DistinctIds;
    forall i | 0 <= i < |c.fields|
      ensures ReadRowField(row, baseline)(c.fields[i]).Ok? ==> ReadRowField(row, baseline)(c.fields[i]).value.Some?
      ensures forall v :: ReadRowField(row, baseline)(c.fields[i]) == Ok(Some(v)) <==> ShowsInRow(row, c.fields[i], baseline, v)
    {
      RowFieldShows(row, c.fields[i], baseline, Missing);
      forall v ensures ReadRowField(row, baseline)(c.fields[i]) == Ok(Some(v)) <==> ShowsInRow(row, c.fields[i], baseline, v) {
        RowFieldShows(row, c.fields[i], baseline, v);
      }
    }
    CollectsExactly(c.fields, ReadRowField(row, baseline), p);
  }

  // ----- Views -----

  predicate MapsId(c: Config, id: NotionId) {
    exists i :: 0 <= i < |c.fields| && c.fields[i].id == id
  }

  /** The mapped field with this id that comes first can group a view. */
  predicate CanGroup(c: Config, id: NotionId) {
    exists i :: 0 <= i < |c.fields| && c.fields[i].id == id && c.fields[i].options.Some? && forall j :: 0 <= j < i ==> c.fields[j].id != id
  }

  /** The ids of the columns shown, in order. */
  ghost predicate ShownColumns(columns: seq<Column>, ids: seq<NotionId>) {
    if columns == [] then ids == []
    else if columns[0].visible == Some(false) then ShownColumns(columns[1..], ids)
    else ids != [] && ids[0] == columns[0].propertyId && ShownColumns(columns[1..], ids[1..])
  }

  ghost predicate ViewColumns(view: View, c: Config, ids: seq<NotionId>) {
    if view.configuration.Some? && view.configuration.value.properties.Some?
    then ShownColumns(view.configuration.value.properties.value, ids)
    else |ids| == |c.fields| && forall i :: 0 <= i < |ids| ==> ids[i] == c.fields[i].id
  }

  function ViewGroup(view: View): Option<NotionId> {
    if view.configuration.Some? && view.configuration.value.groupBy.Some? then view.configuration.value.groupBy.value.propertyId else None
  }

  /** Nothing in the view's configuration would be lost. */
  predicate Lossless(view: View) {
    && !view.filtered && view.sorts == 0 && view.quickFilters == 0
    && (view.configuration.Some? ==>
          var cfg := view.configuration.value;
          && !cfg.subtasksShown && !cfg.subGrouped
          && (cfg.groupBy.Some? && cfg.groupBy.value.kind == Some(Status) ==> cfg.groupBy.value.byOption))
  }

  ghost predicate ShowsView(view: View, c: Config, p: Projection) {
    && view.dataSource == c.dataSource && Lossless(view)
    && p.Keys == {"name", "columns", "group", "kind"}
    && p["name"] == Text(if view.name.Some? then view.name.value else [])
    && p["kind"] == Id(view.kind)
    && p["columns"].Ids? && p["columns"].ids != [] && ViewColumns(view, c, p["columns"].ids)
    && (forall i :: 0 <= i < |p["columns"].ids| ==> MapsId(c, p["columns"].ids[i]))
    && p["group"] == (match ViewGroup(view) case Some(id) => Id(id) case None => Null)
    && var grouped := ViewGroup(view).Some? && ViewGroup(view).value != "";
       && (grouped ==> CanGroup(c, ViewGroup(view).value))
       && ((view.kind == "board" && grouped) || (view.kind == "table" && !grouped))
  }

  lemma {:induction false} VisibleAreShown(columns: seq<Column>, ids: seq<NotionId>)
    ensures VisibleIds(columns) == ids <==> ShownColumns(columns, ids)
    decreases |columns|
  {
    if columns != [] {
      if columns[0].visible == Some(false) {
        VisibleAreShown(columns[1..], ids);
      } else if ids != [] {
        VisibleAreShown(columns[1..], ids[1..]);
        assert ids == [ids[0]] + ids[1..];
        assert VisibleIds(columns) == [columns[0].propertyId] + VisibleIds(columns[1..]);
      }
    }
  }

  lemma {:induction false} FieldIdsAre(fields: seq<Field>)
    ensures |FieldIds(fields)| == |fields| && forall i :: 0 <= i < |fields| ==> FieldIds(fields)[i] == fields[i].id
  {
    if fields != [] {
      FieldIdsAre(fields[1..]);
    }
  }

  lemma ColumnsAre(view: View, c: Config, ids: seq<NotionId>)
    ensures ColumnsOf(Configuration(view), c) == ids <==> ViewColumns(view, c, ids)
  {
    FieldIdsAre(c.fields);
    if view.configuration.Some? && view.configuration.value.properties.Some? {
      VisibleAreShown(view.configuration.value.properties.value, ids);
    }
    hide VisibleIds, ShownColumns, FieldIds;
  }

  lemma {:induction false} FirstField(fields: seq<Field>, id: NotionId)
    ensures FieldById(fields, id).Some? ==> exists i :: 0 <= i < |fields| && fields[i] == FieldById(fields, id).value && fields[i].id == id && forall j :: 0 <= j < i ==> fields[j].id != id
    ensures FieldById(fields, id).None? ==> forall i :: 0 <= i < |fields| ==> fields[i].id != id
  {
    if fields != [] && fields[0].id != id {
      FirstField(fields[1..], id);
      if FieldById(fields, id).Some? {
        var i :| 0 <= i < |fields[1..]| && fields[1..][i] == FieldById(fields, id).value && fields[1..][i].id == id && forall j :: 0 <= j < i ==> fields[1..][j].id != id;
        assert fields[i + 1] == FieldById(fields, id).value;
        assert forall j :: 0 < j < i + 1 ==> fields[j] == fields[1..][j - 1];
      } else {
        assert forall i :: 0 < i < |fields| ==> fields[i] == fields[1..][i - 1];
      }
    }
  }

  lemma FieldMeans(c: Config, id: NotionId)
    ensures FieldById(c.fields, id).Some? <==> MapsId(c, id)
    ensures Groupable(id, c) <==> CanGroup(c, id)
  {
    FirstField(c.fields, id);
    hide FieldById;
  }

  lemma ProjectionIs(p: Projection, name: Value, columns: seq<NotionId>, group: Option<NotionId>, kind: string)
    ensures p == ViewProjection(name, columns, group, kind) <==>
      && p.Keys == {"name", "columns", "group", "kind"}
      && p["name"] == name && p["columns"] == Ids(columns) && p["kind"] == Id(kind)
      && p["group"] == match group case Some(id) => Id(id) case None => Null
  {
    ViewProjectionParts(name, columns, group, kind);
    var q := ViewProjection(name, columns, group, kind);
    hide ViewProjection;
    if p.Keys == q.Keys && p["name"] == q["name"] && p["columns"] == q["columns"] && p["kind"] == q["kind"] && p["group"] == q["group"] {
      assert forall k :: k in p ==> p[k] == q[k];
    }
  }

  /** What the view's columns and grouping must be. */
  ghost predicate Readable(view: View, c: Config, columns: seq<NotionId>, group: Option<NotionId>) {
    && columns != [] && (forall i :: 0 <= i < |columns| ==> MapsId(c, columns[i]))
    && var grouped := group.Some? && group.value != "";
       && (grouped ==> CanGroup(c, group.value))
       && ((view.kind == "board" && grouped) || (view.kind == "table" && !grouped))
  }

  lemma ViewRefusals(view: View, c: Config)
    ensures var cfg := Configuration(view);
      && (RemoteViewProjection(view, c).Ok? <==>
            view.dataSource == c.dataSource && Lossless(view) && Readable(view, c, ColumnsOf(cfg, c), GroupOf(cfg)))
      && (RemoteViewProjection(view, c).Ok? ==>
            RemoteViewProjection(view, c).value
              == ViewProjection(Text(if view.name.Some? then view.name.value else []), ColumnsOf(cfg, c), GroupOf(cfg), view.kind))
  {
    forall id ensures (FieldById(c.fields, id).Some? <==> MapsId(c, id)) && (Groupable(id, c) <==> CanGroup(c, id)) {
      FieldMeans(c, id);
    }
    LosslessMeans(view);
    hide ColumnsOf, FieldById, MapsId, CanGroup, Groupable, ViewProjection, GroupOf, Lossless, Configuration;
  }

  lemma LosslessMeans(view: View)
    ensures var cfg := Configuration(view);
      Lossless(view) <==>
        && !view.filtered && view.sorts == 0 && view.quickFilters == 0 && !cfg.subtasksShown && !cfg.subGrouped
        && (cfg.groupBy.Some? && cfg.groupBy.value.kind == Some(Status) ==> cfg.groupBy.value.byOption)
  {
  }

  /** A provider view is read exactly when nothing in it would be lost, and as its
      name, its shown columns in order, its grouping and its kind. */
  lemma ViewReadsExactly(view: View, c: Config, p: Projection)
    ensures RemoteViewProjection(view, c) == Ok(p) <==> ShowsView(view, c, p)
  {
    var cfg := Configuration(view);
    var ids, group, name := ColumnsOf(cfg, c), GroupOf(cfg), Text(if view.name.Some? then view.name.value else []);
    assert group == ViewGroup(view);
    ViewRefusals(view, c);
    ProjectionIs(p, name, ids, group, view.kind);
    ColumnsAre(view, c, ids);
    hide RemoteViewProjection, ColumnsOf, MapsId, CanGroup, ViewColumns, ViewProjection, GroupOf, Lossless, ViewGroup;
    if ShowsView(view, c, p) {
      ColumnsAre(view, c, p["columns"].ids);
    }
  }

  /** The first mapped field kept in the property has this id. */
  ghost predicate KeptIn(fields: seq<Field>, property: Iri, id: NotionId) {
    exists i :: FirstKept(fields, property, i) && fields[i].id == id
  }

  predicate FirstKept(fields: seq<Field>, property: Iri, i: int) {
    0 <= i < |fields| && fields[i].property == property && forall j :: 0 <= j < i ==> fields[j].property != property
  }

  lemma {:induction false} KeptFound(fields: seq<Field>, property: Iri)
    ensures forall i :: FirstKept(fields, property, i) ==> FieldByProperty(fields, property) == Some(fields[i])
    ensures FieldByProperty(fields, property).Some? ==> exists i :: FirstKept(fields, property, i)
  {
    if fields != [] {
      if fields[0].property == property {
        assert FirstKept(fields, property, 0);
      } else {
        KeptFound(fields[1..], property);
        forall i | FirstKept(fields, property, i) ensures FieldByProperty(fields, property) == Some(fields[i]) {
          assert FirstKept(fields[1..], property, i - 1);
        }
        if FieldByProperty(fields, property).Some? {
          var i :| FirstKept(fields[1..], property, i);
          assert FirstKept(fields, property, i + 1);
        }
      }
    }
  }

  lemma KeptIs(fields: seq<Field>, property: Iri, id: NotionId)
    ensures FieldByProperty(fields, property).Some? && FieldByProperty(fields, property).value.id == id <==> KeptIn(fields, property, id)
  {
    KeptFound(fields, property);
    hide FieldByProperty, FirstKept;
  }

  ghost predicate AllKept(fields: seq<Field>, properties: seq<Iri>, ids: seq<NotionId>) {
    |properties| == |ids| && forall i :: 0 <= i < |ids| ==> KeptIn(fields, properties[i], ids[i])
  }

  lemma {:induction false} ColumnsKept(fields: seq<Field>, properties: seq<Iri>, ids: seq<NotionId>)
    ensures ColumnIds(fields, properties) == Ok(ids) <==> AllKept(fields, properties, ids)
    decreases |properties|
  {
    if properties != [] && ids != [] {
      KeptIs(fields, properties[0], ids[0]);
      ColumnsKept(fields, properties[1..], ids[1..]);
      hide KeptIn, FieldByProperty;
      assert ids == [ids[0]] + ids[1..];
      if AllKept(fields, properties[1..], ids[1..]) && KeptIn(fields, properties[0], ids[0]) {
        forall i | 0 <= i < |ids| ensures KeptIn(fields, properties[i], ids[i]) {
          if i > 0 {
            assert KeptIn(fields, properties[1..][i - 1], ids[1..][i - 1]);
          }
        }
      }
      if ColumnIds(fields, properties) == Ok(ids) {
        assert ColumnIds(fields, properties[1..]).value == ids[1..];
      }
    }
  }

  /** The Atomic view filters and sorts nothing, and is of the kind it is bound as. */
  predicate KeepsKind(row: Row, binding: ViewBinding) {
    && (Get(row, ViewFilters).Links? ==> row[ViewFilters].links == [])
    && (Get(row, ViewSortBy).Missing? || Get(row, ViewSortBy).Null?)
    && if Get(row, ViewKind) == Id("kanban") then binding.kind == "board" else Get(row, ViewKind) == Id(binding.kind)
  }

  ghost predicate GroupedBy(row: Row, c: Config, group: Value) {
    if Get(row, Group).Link? && Get(row, Group).link != Other("")
    then group.Id? && KeptIn(c.fields, Get(row, Group).link, group.id)
    else group == Null
  }

  ghost predicate ShowsLocalView(row: Row, c: Config, binding: ViewBinding, p: Projection) {
    && KeepsKind(row, binding)
    && p.Keys == {"name", "columns", "group", "kind"} && p["name"] == Get(row, Name) && p["kind"] == Id(binding.kind)
    && p["columns"].Ids? && p["columns"].ids != [] && Get(row, Columns).Links? && AllKept(c.fields, row[Columns].links, p["columns"].ids)
    && GroupedBy(row, c, p["group"])
  }

  lemma LocalGroupIs(row: Row, c: Config, group: Value)
    ensures (LocalGroup(row, c).Ok? && group == match LocalGroup(row, c).value case Some(id) => Id(id) case None => Null) <==> GroupedBy(row, c, group)
  {
    if Get(row, Group).Link? {
      KeptFound(c.fields, Get(row, Group).link);
      if group.Id? {
        KeptIs(c.fields, Get(row, Group).link, group.id);
      }
    }
    hide FieldByProperty, FirstKept, KeptIn;
  }

  /** An Atomic view is read exactly when nothing in it would be lost, and as its
      name, its columns in order, its grouping and its kind. */
  lemma LocalViewReadsExactly(row: Row, c: Config, binding: ViewBinding, p: Projection)
    ensures LocalViewProjection(row, c, binding) == Ok(p) <==> ShowsLocalView(row, c, binding, p)
  {
    var properties := if Get(row, Columns).Links? then row[Columns].links else [];
    if LocalViewProjection(row, c, binding).Ok? {
      var ids, group := ColumnIds(c.fields, properties).value, LocalGroup(row, c).value;
      ColumnsKept(c.fields, properties, ids);
      ProjectionIs(p, Get(row, Name), ids, group, binding.kind);
      ViewProjectionParts(Get(row, Name), ids, group, binding.kind);
    }
    if "columns" in p && p["columns"].Ids? && "group" in p {
      ColumnsKept(c.fields, properties, p["columns"].ids);
      LocalGroupIs(row, c, p["group"]);
    }
    hide ColumnIds, LocalGroup, AllKept, GroupedBy, ViewProjection;
  }

  // ----- View patches -----

  /** The settings of the first column with the id, or none. */
  ghost predicate SettingsAre(columns: seq<Column>, id: NotionId, settings: map<string, string>) {
    if exists i :: FirstColumn(columns, id, i)
    then forall i :: FirstColumn(columns, id, i) ==> columns[i].settings == settings
    else settings == map[]
  }

  predicate FirstColumn(columns: seq<Column>, id: NotionId, i: int) {
    0 <= i < |columns| && columns[i].propertyId == id && forall j :: 0 <= j < i ==> columns[j].propertyId != id
  }

  lemma {:induction false} SettingsFound(columns: seq<Column>, id: NotionId)
    ensures forall i :: FirstColumn(columns, id, i) ==> SettingsOf(columns, id) == columns[i].settings
    ensures (forall i :: !FirstColumn(columns, id, i)) ==> SettingsOf(columns, id) == map[]
  {
    if columns != [] {
      if columns[0].propertyId == id {
        assert FirstColumn(columns, id, 0);
      } else {
        SettingsFound(columns[1..], id);
        forall i | FirstColumn(columns, id, i) ensures SettingsOf(columns, id) == columns[i].settings {
          assert FirstColumn(columns[1..], id, i - 1);
        }
        if forall i :: !FirstColumn(columns, id, i) {
          forall i ensures !FirstColumn(columns[1..], id, i) {
            assert !FirstColumn(columns, id, i + 1);
            assert columns[1..] == columns[1..|columns|];
          }
        }
      }
    }
  }

  /** The columns that are not shown, in order, only hidden. */
  ghost predicate OnlyHidden(existing: seq<Column>, ids: seq<NotionId>, rest: seq<Column>) {
    if existing == [] then rest == []
    else if existing[0].propertyId in ids then OnlyHidden(existing[1..], ids, rest)
    else rest != [] && rest[0] == existing[0].(visible := Some(false)) && OnlyHidden(existing[1..], ids, rest[1..])
  }

  lemma {:induction false} HiddenOnly(existing: seq<Column>, ids: seq<NotionId>)
    ensures OnlyHidden(existing, ids, Hidden(existing, ids))
  {
    if existing != [] {
      HiddenOnly(existing[1..], ids);
      assert existing[0].propertyId !in ids ==> Hidden(existing, ids)[1..] == Hidden(existing[1..], ids);
      assert existing[0].propertyId in ids ==> Hidden(existing, ids) == Hidden(existing[1..], ids);
    }
  }

  /** The columns of a patched view: the desired ones first, shown with the settings
      they had, then the others, hidden. */
  ghost predicate Arranged(existing: seq<Column>, ids: seq<NotionId>, columns: seq<Column>) {
    && |ids| <= |columns| && OnlyHidden(existing, ids, columns[|ids|..])
    && forall i :: 0 <= i < |ids| ==> columns[i].propertyId == ids[i] && columns[i].visible == Some(true) && SettingsAre(existing, ids[i], columns[i].settings)
  }

  lemma PlacedAre(existing: seq<Column>, ids: seq<NotionId>)
    ensures Arranged(existing, ids, Shown(existing, ids) + Hidden(existing, ids))
  {
    ShownKeeps(existing, ids);
    HiddenOnly(existing, ids);
    assert (Shown(existing, ids) + Hidden(existing, ids))[|ids|..] == Hidden(existing, ids);
    forall i | 0 <= i < |ids| ensures SettingsAre(existing, ids[i], SettingsOf(existing, ids[i])) {
      SettingsFound(existing, ids[i]);
    }
    hide Shown, Hidden, SettingsOf, FirstColumn, SettingsAre, OnlyHidden;
  }

  /** A view is regrouped by hand-sorted options of the new field. */
  ghost predicate GroupsBy(c: Config, id: NotionId, group: Option<GroupBy>) {
    exists i :: 0 <= i < |c.fields| && c.fields[i].id == id && (forall j :: 0 <= j < i ==> c.fields[j].id != id)
      && group == Some(GroupBy.GroupBy(Some(c.fields[i].kind), Some(id), c.fields[i].kind == Status, map["sort" := "manual"]))
  }

  /** What a view patch says: the name if it differs, and the configuration if columns
      or grouping do; there only the columns are arranged anew and, where the grouping
      differs, the grouping. */
  lemma ViewPatchExactly(current: View, desired: Projection, c: Config)
    requires RemoteViewPatch(desired, current, c).Ok?
    ensures RemoteViewProjection(current, c).Ok?
    ensures var before, patch := RemoteViewProjection(current, c).value, RemoteViewPatch(desired, current, c).value;
      var columns, group := Get(desired, "columns") != Get(before, "columns"), Get(desired, "group") != Get(before, "group");
      && patch.name == (if Get(desired, "name") != Get(before, "name") then Some(Get(desired, "name")) else None)
      && (patch.configuration.Some? <==> columns || group)
      && (patch.configuration.Some? ==>
            var cfg, after := if current.configuration.Some? then current.configuration.value else ViewConfig(false, false, None, None, map[]), patch.configuration.value;
            && Get(desired, "columns").Ids? && after.properties.Some?
            && Arranged(if cfg.properties.Some? then cfg.properties.value else [], Get(desired, "columns").ids, after.properties.value)
            && after.settings == cfg.settings && after.subtasksShown == cfg.subtasksShown && after.subGrouped == cfg.subGrouped
            && if group then Get(desired, "group").Id? && GroupsBy(c, Get(desired, "group").id, after.groupBy) else after.groupBy == cfg.groupBy)
  {
    var cfg := Configuration(current);
    if Get(desired, "columns").Ids? {
      PlacedAre(if cfg.properties.Some? then cfg.properties.value else [], Get(desired, "columns").ids);
    }
    if Get(desired, "group").Id? && FieldById(c.fields, Get(desired, "group").id).Some? {
      var f := FieldById(c.fields, Get(desired, "group").id).value;
      forall placed ensures GroupsBy(c, Get(desired, "group").id, Regrouped(placed, f).groupBy) {
        GroupWritten(c, placed, Get(desired, "group").id);
      }
    }
    hide RemoteViewProjection, Shown, Hidden, Arranged, FieldById, Get, GroupsBy;
  }

  lemma GroupWritten(c: Config, placed: ViewConfig, id: NotionId)
    requires FieldById(c.fields, id).Some?
    ensures GroupsBy(c, id, Regrouped(placed, FieldById(c.fields, id).value).groupBy)
  {
    FirstField(c.fields, id);
    hide FieldById;
  }

  // ----- The data source -----

  /** The property is there with its type, and its options are the mapped ones under their names. */
  ghost predicate StillMapped(w: World, f: Field) {
    && f.id in w.schema.properties && w.schema.properties[f.id].kind == Some(f.kind)
    && (f.options.Some? ==>
          var options, choices := w.schema.properties[f.id].options, f.options.value;
          && SameIds(options, choices)
          && (f.optionNames.Some? ==> forall i :: 0 <= i < |options| ==> NamedAlike(w, f, options[i])))
  }

  /** The same ids on both sides, in whatever order. */
  ghost predicate SameIds(options: seq<SchemaOption>, choices: seq<Choice>) {
    multiset(seq(|options|, i requires 0 <= i < |options| => options[i].id)) == multiset(seq(|choices|, i requires 0 <= i < |choices| => choices[i].id))
  }

  /** Notion, the mapping and the Atomic tag call the option by one name. */
  ghost predicate NamedAlike(w: World, f: Field, option: SchemaOption)
    requires f.options.Some? && f.optionNames.Some?
  {
    && option.id in f.optionNames.value && option.name == f.optionNames.value[option.id]
    && exists i :: FirstWithId(f.options.value, option.id, i) && Get(Read(w, f.options.value[i].tag), Name) == Text(option.name)
  }

  lemma {:induction false} OptionIdsAre(options: seq<SchemaOption>)
    ensures OptionIds(options) == seq(|options|, i requires 0 <= i < |options| => options[i].id)
  {
    if options != [] {
      OptionIdsAre(options[1..]);
    }
  }

  lemma {:induction false} ChoiceKeysAre(choices: seq<Choice>)
    ensures ChoiceKeys(choices) == seq(|choices|, i requires 0 <= i < |choices| => choices[i].id)
  {
    if choices != [] {
      ChoiceKeysAre(choices[1..]);
    }
  }

  lemma SameOnceSorted(a: seq<string>, b: seq<string>)
    ensures Sort(a) == Sort(b) <==> multiset(a) == multiset(b)
  {
    SortSorts(a);
    SortSorts(b);
    if multiset(a) == multiset(b) {
      SortedUnique(Sort(a), Sort(b));
    }
    hide Sort, Sorted;
  }

  lemma OptionNamedIs(w: World, f: Field, option: SchemaOption)
    requires f.options.Some? && f.optionNames.Some?
    ensures OptionNamed(w, f, option) <==> NamedAlike(w, f, option)
  {
    TagFound(f.options.value, option.id);
    hide TagOf, FirstWithId;
  }

  lemma SortedAlike(options: seq<SchemaOption>, choices: seq<Choice>)
    ensures Sort(OptionIds(options)) == Sort(ChoiceKeys(choices)) <==> SameIds(options, choices)
  {
    OptionIdsAre(options);
    ChoiceKeysAre(choices);
    SameOnceSorted(OptionIds(options), ChoiceKeys(choices));
    hide Sort, OptionIds, ChoiceKeys;
  }

  lemma FieldStillMapped(w: World, f: Field)
    ensures CheckSchemaField(w, f).Ok? <==> StillMapped(w, f)
  {
    hide Sort, OptionIds, ChoiceKeys, NamedAlike, SameIds;
    if f.id in w.schema.properties && f.options.Some? {
      var options := w.schema.properties[f.id].options;
      SortedAlike(options, f.options.value);
      if f.optionNames.Some? {
        forall i | 0 <= i < |options| ensures OptionNamed(w, f, options[i]) <==> NamedAlike(w, f, options[i]) {
          OptionNamedIs(w, f, options[i]);
        }
        hide OptionNamed;
      }
    }
  }

  lemma {:induction false} FieldsStillMapped(w: World, fields: seq<Field>)
    ensures CheckSchemaFields(w, fields).Ok? <==> forall i :: 0 <= i < |fields| ==> StillMapped(w, fields[i])
  {
    hide CheckSchemaField, StillMapped;
    if fields != [] {
      FieldStillMapped(w, fields[0]);
      FieldsStillMapped(w, fields[1..]);
      if forall i :: 0 <= i < |fields[1..]| ==> StillMapped(w, fields[1..][i]) {
        forall i | 0 < i < |fields| ensures StillMapped(w, fields[i]) {
          assert StillMapped(w, fields[1..][i - 1]);
        }
      }
      if forall i :: 0 <= i < |fields| ==> StillMapped(w, fields[i]) {
        forall i | 0 <= i < |fields[1..]| ensures StillMapped(w, fields[1..][i]) {
          assert StillMapped(w, fields[i + 1]);
        }
      }
    }
  }

  /** The data source passes its check exactly when it is the connected one and every
      field is still mapped as it was. */
  lemma SchemaChecksExactly(w: World, c: Config)
    ensures CheckSchema(w, c).Ok? <==> w.schema.id == c.dataSource && forall i :: 0 <= i < |c.fields| ==> StillMapped(w, c.fields[i])
  {
    FieldsStillMapped(w, c.fields);
    hide CheckSchemaFields, StillMapped;
  }

  // ----- Both stores -----

  ghost predicate LivePage(page: Page, c: Config, p: Projection) {
    && page.isPage && page.dataSource == c.dataSource && !page.archived && !page.inTrash
    && Covers(c.fields, p) && forall i :: 0 <= i < |c.fields| ==> ShowsOnPage(page, c.fields[i], p[c.fields[i].id])
  }

  ghost predicate SchemaFits(w: World, c: Config) {
    w.schema.id == c.dataSource && forall i :: 0 <= i < |c.fields| ==> StillMapped(w, c.fields[i])
  }

  /** What the provider shows of an object. */
  ghost predicate ProviderShows(w: World, c: Config, kind: Kind, id: NotionId, p: Projection) {
    match kind
    case PageChange => id in w.pages && LivePage(w.pages[id], c, p)
    case ViewChange => id in w.views && ShowsView(w.views[id], c, p)
    case SchemaChange => SchemaFits(w, c) && id in w.schema.properties && p == map["name" := Text(w.schema.properties[id].name)]
  }

  /** Reading the provider's side gives exactly what it shows. */
  lemma ReadsProviderExactly(w: World, c: Config, kind: Kind, id: Option<NotionId>, p: Projection)
    requires DistinctIds(c.fields)
    ensures ReadRemote(w, c, kind, id) == Ok(p) <==> id.Some? && ProviderShows(w, c, kind, id.value, p)
  {
    hide PageProjection, RemoteViewProjection, CheckSchema, ShowsOnPage, ShowsView, StillMapped, DistinctIds;
    SchemaChecksExactly(w, c);
    if id.Some? && id.value in w.pages {
      PageReadsExactly(w.pages[id.value], c, p);
    }
    if id.Some? && id.value in w.views {
      ViewReadsExactly(w.views[id.value], c, p);
    }
  }

  /** The projection last agreed on for the page a row names. */
  function SavedPage(conn: Connection, c: Config, row: Row): Option<Projection> {
    if Get(row, c.identity).Id? && RecordKey(PageChange, Get(row, c.identity).id) in conn.records
    then conn.records[RecordKey(PageChange, Get(row, c.identity).id)].baseline else None
  }

  ghost predicate TableRow(row: Row, conn: Connection, c: Config, p: Projection) {
    && Get(row, Parent) == Link(c.table) && Get(row, IsA).Links? && c.rowClass in row[IsA].links
    && Covers(c.fields, p) && forall i :: 0 <= i < |c.fields| ==> ShowsInRow(row, c.fields[i], SavedPage(conn, c, row), p[c.fields[i].id])
  }

  /** The view binding with the id that comes first. */
  ghost predicate BoundAs(c: Config, id: Option<NotionId>, binding: ViewBinding) {
    exists i :: 0 <= i < |c.views| && c.views[i] == binding && Some(binding.id) == id && forall j :: 0 <= j < i ==> Some(c.views[j].id) != id
  }

  /** What Atomic shows of a change's resource. */
  ghost predicate AtomicShows(w: World, conn: Connection, c: Config, kind: Kind, id: Option<NotionId>, s: Iri, p: Projection) {
    match kind
    case PageChange => TableRow(Read(w, s), conn, c, p)
    case SchemaChange => p == map["name" := Get(Read(w, s), Name)]
    case ViewChange => exists binding :: BoundAs(c, id, binding) && ShowsLocalView(Read(w, s), c, binding, p)
  }

  lemma {:induction false} BindingIs(views: seq<ViewBinding>, id: Option<NotionId>)
    ensures BindingOf(views, id).Some? ==> exists i :: 0 <= i < |views| && views[i] == BindingOf(views, id).value && Some(views[i].id) == id && forall j :: 0 <= j < i ==> Some(views[j].id) != id
    ensures BindingOf(views, id).None? ==> forall i :: 0 <= i < |views| ==> Some(views[i].id) != id
  {
    if views != [] && Some(views[0].id) != id {
      BindingIs(views[1..], id);
      if BindingOf(views, id).Some? {
        var i :| 0 <= i < |views[1..]| && views[1..][i] == BindingOf(views, id).value && Some(views[1..][i].id) == id && forall j :: 0 <= j < i ==> Some(views[1..][j].id) != id;
        assert views[i + 1] == BindingOf(views, id).value;
        assert forall j :: 0 < j < i + 1 ==> views[j] == views[1..][j - 1];
      } else {
        assert forall i :: 0 < i < |views| ==> views[i] == views[1..][i - 1];
      }
    }
  }

  lemma BoundIs(c: Config, id: Option<NotionId>, binding: ViewBinding)
    ensures BindingOf(c.views, id) == Some(binding) <==> BoundAs(c, id, binding)
  {
    BindingIs(c.views, id);
    hide BindingOf;
  }

  lemma ReadsRowExactly(w: World, conn: Connection, c: Config, s: Iri, p: Projection)
    requires DistinctIds(c.fields)
    ensures ReadRow(w, conn, c, s) == Ok(p) <==> TableRow(Read(w, s), conn, c, p)
  {
    RowReadsExactly(Read(w, s), c, SavedPage(conn, c, Read(w, s)), p);
    hide RowProjection, ShowsInRow, DistinctIds;
  }

  /** Reading the Atomic side gives exactly what it shows, and nothing where there is no resource. */
  lemma ReadsAtomicExactly(w: World, conn: Connection, c: Config, ch: Change, subject: Option<Iri>, shown: Option<Projection>)
    requires DistinctIds(c.fields)
    ensures ReadLocal(w, conn, c, ch, subject) == Ok(shown) <==>
      if subject.None? then shown.None? else shown.Some? && AtomicShows(w, conn, c, ch.kind, ch.id, subject.value, shown.value)
  {
    hide ReadRow, LocalViewProjection, TableRow, ShowsLocalView, BindingOf, BoundAs, DistinctIds;
    if subject.Some? && shown.Some? {
      ReadsRowExactly(w, conn, c, subject.value, shown.value);
      forall binding ensures (BindingOf(c.views, ch.id) == Some(binding) <==> BoundAs(c, ch.id, binding))
        && (LocalViewProjection(Read(w, subject.value), c, binding) == Ok(shown.value) <==> ShowsLocalView(Read(w, subject.value), c, binding, shown.value))
      {
        BoundIs(c, ch.id, binding);
        LocalViewReadsExactly(Read(w, subject.value), c, binding, shown.value);
      }
    }
  }
}
