/** Notion pages and Atomic rows: projections onto the mapped fields, and the patches that write them. */
module NotionModel {
  import opened Wrappers
  import opened Ordering
  import opened TextChunks

  type NotionId = string

  /** An Atomic identifier; the well-known properties by name. */
  datatype Iri = Name | Parent | IsA | Columns | ViewKind | Group | ViewFilters | ViewSortBy | LocalId | Other(iri: string)

  predicate Truthy(iri: Iri) {
    iri != Other("")
  }

  datatype FieldType = Title | RichText | NumberField | Checkbox | Url | Email | Phone | Select | MultiSelect | Status

  predicate IsText(kind: FieldType) {
    kind.Title? || kind.RichText?
  }

  predicate IsSelect(kind: FieldType) {
    kind.Select? || kind.Status?
  }

  /** A mapped option: Notion's id and the Atomic tag it stands for. */
  datatype Choice = Choice(id: NotionId, tag: Iri)

  datatype Field = Field(id: NotionId, property: Iri, kind: FieldType, options: Option<seq<Choice>>, optionNames: Option<map<NotionId, Text>>)

  /** `kind` is "table" or "board". */
  datatype ViewBinding = ViewBinding(id: NotionId, subject: Iri, kind: string)

  datatype Config = Config(
    dataSource: NotionId,
    table: Iri,
    rowClass: Iri,
    identity: Iri,
    arrival: Iri,
    fields: seq<Field>,
    views: seq<ViewBinding>)

  /** `Missing` is JavaScript's `undefined`. */
  datatype Value =
    | Text(text: Text)
    | Number(number: real)
    | Flag(on: bool)
    | Null
    | Id(id: string)
    | Ids(ids: seq<NotionId>)
    | Link(link: Iri)
    | Links(links: seq<Iri>)
    | Missing

  type Projection = map<NotionId, Value>

  type Row = map<Iri, Value>

  function Get<K>(m: map<K, Value>, k: K): Value {
    if k in m then m[k] else Missing
  }

  // ----- Options -----

  function TagOf(choices: seq<Choice>, id: NotionId): Option<Iri> {
    if choices == [] then None
    else if choices[0].id == id then Some(choices[0].tag)
    else TagOf(choices[1..], id)
  }

  function ChoiceOf(choices: seq<Choice>, tag: Iri): Option<NotionId> {
    if choices == [] then None
    else if choices[0].tag == tag then Some(choices[0].id)
    else ChoiceOf(choices[1..], tag)
  }

  predicate Mapped(f: Field, id: NotionId) {
    f.options.Some? && TagOf(f.options.value, id).Some? && Truthy(TagOf(f.options.value, id).value)
  }

  predicate GoodChoices(choices: seq<Choice>) {
    && (forall i :: 0 <= i < |choices| ==> choices[i].id != "")
    && (forall i, j :: 0 <= i < j < |choices| ==> choices[i].id != choices[j].id && choices[i].tag != choices[j].tag)
  }

  lemma {:induction false} TagRoundTrip(choices: seq<Choice>, id: NotionId)
    requires GoodChoices(choices)
    requires TagOf(choices, id).Some?
    ensures ChoiceOf(choices, TagOf(choices, id).value) == Some(id) && id != ""
    ensures exists i :: 0 <= i < |choices| && choices[i] == Choice(id, TagOf(choices, id).value)
  {
    if choices[0].id != id {
      TagRoundTrip(choices[1..], id);
      var i :| 0 <= i < |choices[1..]| && choices[1..][i] == Choice(id, TagOf(choices[1..], id).value);
      assert choices[i + 1] == Choice(id, TagOf(choices, id).value);
    } else {
      assert choices[0] == Choice(id, TagOf(choices, id).value);
    }
  }

  // ----- Validation -----

  predicate Valid(f: Field, v: Value) {
    match f.kind
    case NumberField => v.Null? || v.Number?
    case Checkbox => v.Flag?
    case MultiSelect => v.Ids? && forall i :: 0 <= i < |v.ids| ==> Mapped(f, v.ids[i])
    case Select | Status => v.Null? || (v.Id? && Mapped(f, v.id))
    case Title | RichText => v.Text?
    case Url | Email | Phone => v.Null? || v.Text?
  }

  function ValidateValue(f: Field, v: Value): Result<Value> {
    if Valid(f, v) then Ok(v) else Err("Invalid or unmapped value")
  }

  // ----- One pass over the mapped fields -----

  /** Reads field after field, keyed by field id; `None` contributes nothing; the first error stops. */
  function Collect<V>(fields: seq<Field>, read: Field -> Result<Option<V>>): Result<map<NotionId, V>> {
    if fields == [] then Ok(map[])
    else
      var last := fields[|fields| - 1];
      var before :- Collect(fields[..|fields| - 1], read);
      var value :- read(last);
      Ok(if value.Some? then before[last.id := value.value] else before)
  }

  ghost predicate DistinctIds(fields: seq<Field>) {
    forall i, j :: 0 <= i < j < |fields| ==> fields[i].id != fields[j].id
  }

  ghost predicate Collected<V>(fields: seq<Field>, read: Field -> Result<Option<V>>, m: map<NotionId, V>) {
    && (forall i :: 0 <= i < |fields| ==>
          && read(fields[i]).Ok?
          && (fields[i].id in m <==> read(fields[i]).value.Some?)
          && (fields[i].id in m ==> m[fields[i].id] == read(fields[i]).value.value))
    && (forall id :: id in m ==> exists i :: 0 <= i < |fields| && fields[i].id == id)
  }

  lemma {:induction false} CollectOk<V>(fields: seq<Field>, read: Field -> Result<Option<V>>)
    requires DistinctIds(fields)
    ensures Collect(fields, read).Ok? <==> forall i :: 0 <= i < |fields| ==> read(fields[i]).Ok?
    ensures Collect(fields, read).Ok? ==> Collected(fields, read, Collect(fields, read).value)
  {
    if fields != [] {
      var n := |fields| - 1;
      CollectOk(fields[..n], read);
      if Collect(fields, read).Ok? {
        var before, m := Collect(fields[..n], read).value, Collect(fields, read).value;
        forall i | 0 <= i < |fields|
          ensures read(fields[i]).Ok?
          ensures fields[i].id in m <==> read(fields[i]).value.Some?
          ensures fields[i].id in m ==> m[fields[i].id] == read(fields[i]).value.value
        {
          if i < n {
            assert fields[..n][i] == fields[i];
          } else {
            assert fields[n].id !in before;
          }
        }
        forall id | id in m ensures exists i :: 0 <= i < |fields| && fields[i].id == id {
          if id in before {
            var k :| 0 <= k < n && fields[..n][k].id == id;
            assert fields[k].id == id;
          } else {
            assert fields[n].id == id;
          }
        }
      } else if forall i :: 0 <= i < |fields| ==> read(fields[i]).Ok? {
        forall i | 0 <= i < n ensures read(fields[..n][i]).Ok? {
          assert fields[..n][i] == fields[i];
        }
      }
    }
  }

  /** Two passes that agree on every field produce the same map. */
  lemma CollectedUnique<V>(fields: seq<Field>, read: Field -> Result<Option<V>>, m: map<NotionId, V>)
    requires DistinctIds(fields)
    requires Collected(fields, read, m)
    ensures Collect(fields, read) == Ok(m)
  {
    CollectOk(fields, read);
    var n := Collect(fields, read).value;
    forall id ensures id in m <==> id in n {
      if id in m || id in n {
        var i :| 0 <= i < |fields| && fields[i].id == id;
      }
    }
    assert m.Keys == n.Keys;
    forall id | id in m ensures m[id] == n[id] {
      var i :| 0 <= i < |fields| && fields[i].id == id;
    }
    assert m == n;
  }

  // ----- Notion pages -----

  /** A rich text item; `plain` when it is unlinked, unformatted text. */
  datatype Part = Part(plain: bool, content: Text)

  datatype Payload = Parts(parts: seq<Part>) | Options(chosen: seq<NotionId>) | OneOption(one: Option<NotionId>) | Scalar(value: Value)

  /** `kind` is `None` for a property type outside the mapped ones. */
  datatype PageProp = PageProp(kind: Option<FieldType>, payload: Payload)

  datatype Page = Page(isPage: bool, dataSource: NotionId, archived: bool, inTrash: bool, properties: map<NotionId, PageProp>)

  function Contents(parts: seq<Part>): seq<Text> {
    seq(|parts|, i requires 0 <= i < |parts| => parts[i].content)
  }

  function PlainTextOf(parts: seq<Part>): Result<Text> {
    if forall i :: 0 <= i < |parts| ==> parts[i].plain then Ok(Join(Contents(parts)))
    else Err("Formatted text or mentions need a lossless mapping")
  }

  method PlainText(parts: seq<Part>) returns (r: Result<Text>)
    ensures r == PlainTextOf(parts)
  {
    var text: Text := [];
    for i := 0 to |parts|
      invariant forall k :: 0 <= k < i ==> parts[k].plain
      invariant text == Join(Contents(parts[..i]))
    {
      if !parts[i].plain {
        return Err("Formatted text or mentions need a lossless mapping");
      }
      assert Contents(parts[..i + 1])[..i] == Contents(parts[..i]);
      text := text + parts[i].content;
    }
    assert parts[..|parts|] == parts;
    return Ok(text);
  }

  function Decode(f: Field, payload: Payload): Result<Value> {
    match f.kind
    case Title | RichText =>
      if payload.Parts? then
        var text :- PlainTextOf(payload.parts);
        Ok(Text(text))
      else Err("Invalid Notion text")
    case MultiSelect => if payload.Options? then Ok(Ids(Sort(payload.chosen))) else Err("Invalid value")
    case Select | Status =>
      if payload.OneOption? then Ok(if payload.one.Some? then Id(payload.one.value) else Null) else Err("Invalid value")
    case _ => if payload.Scalar? then Ok(payload.value) else Err("Invalid value")
  }

  function ReadPageField(page: Page): Field -> Result<Option<Value>> {
    (f: Field) =>
      if f.id !in page.properties || page.properties[f.id].kind != Some(f.kind)
      then Err("Mapped property is missing or changed type")
      else
        var v :- Decode(f, page.properties[f.id].payload);
        var checked :- ValidateValue(f, v);
        Ok(Some(checked))
  }

  predicate PageReachable(page: Page, c: Config) {
    page.isPage && page.dataSource == c.dataSource && !page.archived && !page.inTrash
  }

  function PageProjection(page: Page, c: Config): Result<Projection> {
    if !PageReachable(page, c) then Err("Page missing, moved, archived or outside the connected data source")
    else Collect(c.fields, ReadPageField(page))
  }

  method ProjectPage(page: Page, c: Config) returns (r: Result<Projection>)
    ensures r == PageProjection(page, c)
  {
    if !PageReachable(page, c) {
      return Err("Page missing, moved, archived or outside the connected data source");
    }
    hide ReadPageField, PageReachable;
    var read := ReadPageField(page);
    var result: Projection := map[];
    for i := 0 to |c.fields|
      invariant Collect(c.fields[..i], read) == Ok(result)
    {
      hide Collect;
      var f := c.fields[i];
      var v := read(f);
      if v.Err? {
        CollectStops(c.fields, read, i);
        return Err(v.error);
      }
      CollectStep(c.fields, read, i);
      if v.value.Some? {
        result := result[f.id := v.value.value];
      }
    }
    assert c.fields[..|c.fields|] == c.fields;
    return Ok(result);
  }

  /** The first failing field decides the error of the whole pass. */
  lemma CollectStep<V>(fields: seq<Field>, read: Field -> Result<Option<V>>, i: nat)
    requires i < |fields| && Collect(fields[..i], read).Ok? && read(fields[i]).Ok?
    ensures var before, value := Collect(fields[..i], read).value, read(fields[i]).value;
      Collect(fields[..i + 1], read) == Ok(if value.Some? then before[fields[i].id := value.value] else before)
  {
    assert fields[..i + 1][..i] == fields[..i];
  }

  lemma {:induction false} CollectStops<V>(fields: seq<Field>, read: Field -> Result<Option<V>>, i: nat)
    requires i < |fields|
    requires Collect(fields[..i], read).Ok? && read(fields[i]).Err?
    ensures Collect(fields, read) == Err(read(fields[i]).error)
    decreases |fields|
  {
    var n := |fields| - 1;
    if i < n {
      assert fields[..n][..i] == fields[..i];
      CollectStops(fields[..n], read, i);
    }
  }

  // ----- Writing a page -----

  function Encode(f: Field, v: Value): Result<Payload>
    requires Valid(f, v)
  {
    match f.kind
    case Title | RichText =>
      var chunks := Chunks(v.text);
      if |chunks| > MAX_PARTS then Err("Text exceeds Notion's block-array limit")
      else Ok(Parts(seq(|chunks|, i requires 0 <= i < |chunks| => Part(true, chunks[i]))))
    case MultiSelect => Ok(Options(v.ids))
    case Select | Status => Ok(OneOption(if v.Null? then None else Some(v.id)))
    case _ => Ok(Scalar(v))
  }

  function PatchPageField(desired: Projection, previous: Option<Projection>): Field -> Result<Option<PageProp>> {
    (f: Field) =>
      var value := Get(desired, f.id);
      if !Valid(f, value) then Err("Invalid or unmapped value")
      else if previous.Some? && Get(previous.value, f.id) == value then Ok(None)
      else
        var encoded :- Encode(f, value);
        Ok(Some(PageProp(Some(f.kind), encoded)))
  }

  function PagePatchOf(desired: Projection, previous: Option<Projection>, c: Config): Result<map<NotionId, PageProp>> {
    Collect(c.fields, PatchPageField(desired, previous))
  }

  method PagePatch(desired: Projection, previous: Option<Projection>, c: Config) returns (r: Result<map<NotionId, PageProp>>)
    ensures r == PagePatchOf(desired, previous, c)
  {
    hide PatchPageField;
    var properties: map<NotionId, PageProp> := map[];
    var read := PatchPageField(desired, previous);
    for i := 0 to |c.fields|
      invariant Collect(c.fields[..i], read) == Ok(properties)
    {
      hide Collect;
      var f := c.fields[i];
      var patch := read(f);
      if patch.Err? {
        CollectStops(c.fields, read, i);
        return Err(patch.error);
      }
      CollectStep(c.fields, read, i);
      if patch.value.Some? {
        properties := properties[f.id := patch.value.value];
      }
    }
    assert c.fields[..|c.fields|] == c.fields;
    return Ok(properties);
  }

  /** The provider applies a patch literally, property by property. */
  function Patched(page: Page, patch: map<NotionId, PageProp>): Page {
    page.(properties := page.properties + patch)
  }

  /** What reading back can at most recover: multi-selects come back sorted. */
  function Settled(f: Field, v: Value): Value {
    if f.kind.MultiSelect? && v.Ids? then Ids(Sort(v.ids)) else v
  }

  ghost predicate Canonical(desired: Projection, c: Config) {
    && desired.Keys == (set i | 0 <= i < |c.fields| :: c.fields[i].id)
    && forall i :: 0 <= i < |c.fields| ==> Settled(c.fields[i], desired[c.fields[i].id]) == desired[c.fields[i].id]
  }

  lemma SettledValid(f: Field, v: Value)
    requires Valid(f, v)
    ensures Valid(f, Settled(f, v))
    ensures Settled(f, Settled(f, v)) == Settled(f, v)
  {
    if f.kind.MultiSelect? {
      SortIdempotent(v.ids);
      var sorted := Sort(v.ids);
      forall i | 0 <= i < |sorted| ensures Mapped(f, sorted[i]) {
        assert sorted[i] in multiset(sorted);
        assert sorted[i] in v.ids;
      }
    }
  }

  /** One field written, then read: the value comes back, multi-selects sorted. */
  lemma EncodeDecode(f: Field, v: Value)
    requires Valid(f, v) && Encode(f, v).Ok?
    ensures Decode(f, Encode(f, v).value) == Ok(Settled(f, v))
  {
    if IsText(f.kind) {
      var chunks := Chunks(v.text);
      JoinChunks(v.text);
      var parts := Encode(f, v).value.parts;
      assert Contents(parts) == chunks;
    }
  }

  lemma DecodedIsSettled(f: Field, payload: Payload)
    requires Decode(f, payload).Ok?
    ensures Settled(f, Decode(f, payload).value) == Decode(f, payload).value
  {
    if f.kind.MultiSelect? {
      SortIdempotent(payload.chosen);
    }
  }

  predicate ReadsSettled(f: Field, v: Option<Value>) {
    v.Some? && Valid(f, v.value) && Settled(f, v.value) == v.value
  }

  lemma CollectCanonical(c: Config, read: Field -> Result<Option<Value>>)
    requires DistinctIds(c.fields)
    requires Collect(c.fields, read).Ok?
    requires forall i :: 0 <= i < |c.fields| && read(c.fields[i]).Ok? ==> ReadsSettled(c.fields[i], read(c.fields[i]).value)
    ensures Canonical(Collect(c.fields, read).value, c)
    ensures forall i :: 0 <= i < |c.fields| ==> Valid(c.fields[i], Collect(c.fields, read).value[c.fields[i].id])
  {
    CollectOk(c.fields, read);
  }

  /** A page that projects is canonical: every mapped field, valid, multi-selects sorted. */
  lemma PageProjectionCanonical(page: Page, c: Config)
    requires DistinctIds(c.fields)
    requires PageProjection(page, c).Ok?
    ensures Canonical(PageProjection(page, c).value, c)
    ensures forall i :: 0 <= i < |c.fields| ==> Valid(c.fields[i], PageProjection(page, c).value[c.fields[i].id])
  {
    var read := ReadPageField(page);
    forall i | 0 <= i < |c.fields| && read(c.fields[i]).Ok?
      ensures ReadsSettled(c.fields[i], read(c.fields[i]).value)
    {
      DecodedIsSettled(c.fields[i], page.properties[c.fields[i].id].payload);
    }
    CollectCanonical(c, read);
  }

  lemma WrittenFieldReadsBack(page: Page, patch: map<NotionId, PageProp>, desired: Projection, previous: Option<Projection>, f: Field)
    requires PatchPageField(desired, previous)(f).Ok?
    requires f.id in patch <==> PatchPageField(desired, previous)(f).value.Some?
    requires f.id in patch ==> patch[f.id] == PatchPageField(desired, previous)(f).value.value
    requires previous.Some? ==> ReadPageField(page)(f) == Ok(Some(Get(previous.value, f.id)))
    ensures ReadPageField(Patched(page, patch))(f) == Ok(Some(Settled(f, Get(desired, f.id))))
  {
    var value := Get(desired, f.id);
    SettledValid(f, value);
    if f.id in patch {
      EncodeDecode(f, value);
    } else {
      DecodedIsSettled(f, page.properties[f.id].payload);
    }
  }

  function SettledProjection(desired: Projection, c: Config): Projection {
    map i | i in (set k | 0 <= k < |c.fields| :: c.fields[k].id) ::
      if (exists k :: 0 <= k < |c.fields| && c.fields[k].id == i && c.fields[k].kind.MultiSelect?) && Get(desired, i).Ids?
      then Ids(Sort(Get(desired, i).ids)) else Get(desired, i)
  }

  lemma SettledField(desired: Projection, c: Config, i: nat)
    requires DistinctIds(c.fields) && i < |c.fields|
    ensures c.fields[i].id in SettledProjection(desired, c)
    ensures SettledProjection(desired, c)[c.fields[i].id] == Settled(c.fields[i], Get(desired, c.fields[i].id))
  {
    hide Sort;
    var id := c.fields[i].id;
    forall k | 0 <= k < |c.fields| && c.fields[k].id == id ensures k == i {
      OneFieldPerId(c.fields, i, k);
    }
    var asked := exists k :: 0 <= k < |c.fields| && c.fields[k].id == id && c.fields[k].kind.MultiSelect?;
    assert asked <==> c.fields[i].kind.MultiSelect?;
  }

  lemma OneFieldPerId(fields: seq<Field>, i: nat, k: nat)
    requires DistinctIds(fields) && i < |fields| && k < |fields| && fields[k].id == fields[i].id
    ensures k == i
  {
    assert !(k < i) && !(i < k);
  }

  lemma CanonicalIsSettled(desired: Projection, c: Config)
    requires DistinctIds(c.fields)
    requires desired.Keys == (set i | 0 <= i < |c.fields| :: c.fields[i].id)
    ensures SettledProjection(desired, c) == desired <==> Canonical(desired, c)
  {
    var s := SettledProjection(desired, c);
    assert s.Keys == desired.Keys;
    forall i | 0 <= i < |c.fields|
      ensures s[c.fields[i].id] == Settled(c.fields[i], desired[c.fields[i].id])
    {
      SettledField(desired, c, i);
    }
    if Canonical(desired, c) {
      forall id | id in desired ensures s[id] == desired[id] {
        var i :| 0 <= i < |c.fields| && c.fields[i].id == id;
      }
    }
  }

  lemma PageFieldReadsBack(page: Page, desired: Projection, previous: Option<Projection>, c: Config, i: nat)
    requires DistinctIds(c.fields) && i < |c.fields|
    requires PageReachable(page, c)
    requires previous.Some? ==> PageProjection(page, c) == Ok(previous.value)
    requires PagePatchOf(desired, previous, c).Ok?
    ensures c.fields[i].id in SettledProjection(desired, c)
    ensures ReadPageField(Patched(page, PagePatchOf(desired, previous, c).value))(c.fields[i])
         == Ok(Some(SettledProjection(desired, c)[c.fields[i].id]))
  {
    hide Encode, Decode, Valid, PageReachable;
    CollectOk(c.fields, PatchPageField(desired, previous));
    if previous.Some? {
      CollectOk(c.fields, ReadPageField(page));
    }
    SettledField(desired, c, i);
    WrittenFieldReadsBack(page, PagePatchOf(desired, previous, c).value, desired, previous, c.fields[i]);
  }

  /** Round trip of a page: whatever the patch wrote, reading the page gives the
      desired projection with its multi-selects sorted. `previous` is either the
      projection the page had, or nothing for a page built from the patch alone. */
  lemma PageRoundTrip(page: Page, desired: Projection, previous: Option<Projection>, c: Config)
    requires DistinctIds(c.fields)
    requires PageReachable(page, c)
    requires previous.Some? ==> PageProjection(page, c) == Ok(previous.value)
    requires PagePatchOf(desired, previous, c).Ok?
    ensures PageProjection(Patched(page, PagePatchOf(desired, previous, c).value), c) == Ok(SettledProjection(desired, c))
  {
    var after := Patched(page, PagePatchOf(desired, previous, c).value);
    var s := SettledProjection(desired, c);
    forall i | 0 <= i < |c.fields|
      ensures c.fields[i].id in s && ReadPageField(after)(c.fields[i]) == Ok(Some(s[c.fields[i].id]))
    {
      PageFieldReadsBack(page, desired, previous, c, i);
    }
    CollectedUnique(c.fields, ReadPageField(after), s);
  }

  /** The round trip is exact precisely when the desired multi-selects are sorted. */
  lemma PageRoundTripExact(page: Page, desired: Projection, previous: Option<Projection>, c: Config)
    requires DistinctIds(c.fields)
    requires PageReachable(page, c)
    requires desired.Keys == (set i | 0 <= i < |c.fields| :: c.fields[i].id)
    requires previous.Some? ==> PageProjection(page, c) == Ok(previous.value)
    requires PagePatchOf(desired, previous, c).Ok?
    ensures PageProjection(Patched(page, PagePatchOf(desired, previous, c).value), c) == Ok(desired) <==> Canonical(desired, c)
  {
    PageRoundTrip(page, desired, previous, c);
    CanonicalIsSettled(desired, c);
  }

  /** A page patch exists exactly when every value is valid and every changed text fits 100 parts. */
  lemma PagePatchExists(desired: Projection, previous: Option<Projection>, c: Config)
    requires DistinctIds(c.fields)
    ensures PagePatchOf(desired, previous, c).Ok? <==>
      forall i :: 0 <= i < |c.fields| ==>
        var f := c.fields[i];
        && Valid(f, Get(desired, f.id))
        && (IsText(f.kind) && !(previous.Some? && Get(previous.value, f.id) == Get(desired, f.id)) ==>
              |Chunks(Get(desired, f.id).text)| <= MAX_PARTS)
  {
    CollectOk(c.fields, PatchPageField(desired, previous));
  }
}
