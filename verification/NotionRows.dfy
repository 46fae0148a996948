/** Atomic rows: reading the mapped fields of a row, and the patch that writes them. */
module NotionRows {
  import opened Wrappers
  import opened Ordering
  import opened TextChunks
  import opened NotionModel

  // ----- Reading -----

  /** The title column and Atomic's display name are one value with two homes. */
  function TitleValue(row: Row, f: Field, baseline: Option<Projection>): Result<Value> {
    var v, display := Get(row, f.property), Get(row, Name);
    if !f.kind.Title? || f.property == Name then Ok(v)
    else if v.Missing? then Ok(display)
    else if display.Missing? || v == display then Ok(v)
    else if baseline.Some? && v == Get(baseline.value, f.id) then Ok(display)
    else if baseline.None? || display != Get(baseline.value, f.id)
    then Err("Title and display name changed independently; resolve the local conflict")
    else Ok(v)
  }

  function ChoiceIds(choices: seq<Choice>, tags: seq<Iri>): Result<seq<NotionId>> {
    if tags == [] then Ok([])
    else
      var rest :- ChoiceIds(choices, tags[1..]);
      var id := ChoiceOf(choices, tags[0]);
      if id.None? || id.value == "" then Err("Unmapped Atomic select option") else Ok([id.value] + rest)
  }

  function SelectValue(f: Field, v: Value): Result<Value>
    requires f.options.Some?
  {
    if !(v.Missing? || v.Null? || v.Links?) then Err("Select values must be Atomic tag arrays")
    else
      var found :- ChoiceIds(f.options.value, if v.Links? then v.links else []);
      var ids := Sort(found);
      if f.kind.MultiSelect? then Ok(Ids(ids))
      else if |ids| > 1 then Err("Select/status supports at most one option")
      else Ok(if ids == [] then Null else Id(ids[0]))
  }

  function DefaultFor(f: Field): Value {
    if f.kind.Checkbox? then Flag(false) else if IsText(f.kind) then Text([]) else Null
  }

  function ReadRowField(row: Row, baseline: Option<Projection>): Field -> Result<Option<Value>> {
    (f: Field) =>
      var raw :- TitleValue(row, f, baseline);
      var v :- if f.options.Some? then SelectValue(f, raw)
               else Ok(if raw.Missing? || raw.Null? then DefaultFor(f) else raw);
      var checked :- ValidateValue(f, v);
      Ok(Some(checked))
  }

  predicate InTable(row: Row, c: Config) {
    Get(row, Parent) == Link(c.table)
  }

  predicate HasClass(row: Row, c: Config) {
    Get(row, IsA).Links? && c.rowClass in row[IsA].links
  }

  function RowProjection(row: Row, c: Config, baseline: Option<Projection>): Result<Projection> {
    if !InTable(row, c) || !HasClass(row, c) then Err("Atomic row moved or changed class")
    else Collect(c.fields, ReadRowField(row, baseline))
  }

  method ProjectRow(row: Row, c: Config, baseline: Option<Projection>) returns (r: Result<Projection>)
    ensures r == RowProjection(row, c, baseline)
  {
    if !InTable(row, c) || !HasClass(row, c) {
      return Err("Atomic row moved or changed class");
    }
    hide ReadRowField, InTable, HasClass;
    var result: Projection := map[];
    var read := ReadRowField(row, baseline);
    for i := 0 to |c.fields|
      invariant Collect(c.fields[..i], read) == Ok(result)
    {
      hide Collect;
      var f := c.fields[i];
      var v := read(f);
      if v.Err? {
        CollectStops(c.fields, read, i);
        return Err(v.error);
      }
      CollectStep(c.fields, read, i);
      if v.value.Some? {
        result := result[f.id := v.value.value];
      }
    }
    assert c.fields[..|c.fields|] == c.fields;
    return Ok(result);
  }

  // ----- Writing -----

  datatype RowPatch = RowPatch(put: Row, remove: seq<Iri>)

  function Tags(f: Field, ids: seq<NotionId>): seq<Iri>
    requires forall i :: 0 <= i < |ids| ==> Mapped(f, ids[i])
  {
    if ids == [] then []
    else
      assert Mapped(f, ids[0]);
      [TagOf(f.options.value, ids[0]).value] + Tags(f, ids[1..])
  }

  /** What one field stores on the row; `None` removes the property. */
  function Stored(f: Field, v: Value): Option<Value>
    requires Valid(f, v)
  {
    if f.options.Some? && f.kind.MultiSelect? then Some(Links(Tags(f, v.ids)))
    else if f.options.Some? && IsSelect(f.kind) then Some(Links(if v.Null? then [] else Tags(f, [v.id])))
    else if v.Null? then None
    else Some(v)
  }

  function WriteField(patch: RowPatch, f: Field, v: Value): Result<RowPatch> {
    if !Valid(f, v) then Err("Invalid or unmapped value")
    else if Stored(f, v).Some? then Ok(patch.(put := patch.put[f.property := Stored(f, v).value]))
    else Ok(patch.(remove := patch.remove + [f.property]))
  }

  function WriteFields(desired: Projection, fields: seq<Field>): Result<RowPatch> {
    if fields == [] then Ok(RowPatch(map[], []))
    else
      var last := fields[|fields| - 1];
      var before :- WriteFields(desired, fields[..|fields| - 1]);
      WriteField(before, last, Get(desired, last.id))
  }

  function TitleField(fields: seq<Field>): Option<Field> {
    if fields == [] then None else if fields[0].kind.Title? then Some(fields[0]) else TitleField(fields[1..])
  }

  function RowPatchOf(desired: Projection, c: Config): Result<RowPatch> {
    var patch :- WriteFields(desired, c.fields);
    var title := TitleField(c.fields);
    Ok(if title.Some? then patch.(put := patch.put[Name := Get(desired, title.value.id)]) else patch)
  }

  lemma {:induction false} WriteStops(desired: Projection, fields: seq<Field>, i: nat)
    requires i < |fields|
    requires WriteFields(desired, fields[..i]).Ok?
    requires WriteField(WriteFields(desired, fields[..i]).value, fields[i], Get(desired, fields[i].id)).Err?
    ensures WriteFields(desired, fields) == Err("Invalid or unmapped value")
    decreases |fields|
  {
    var n := |fields| - 1;
    if i < n {
      assert fields[..n][..i] == fields[..i];
      WriteStops(desired, fields[..n], i);
    }
  }

  method PatchRow(desired: Projection, c: Config) returns (r: Result<RowPatch>)
    ensures r == RowPatchOf(desired, c)
  {
    var patch := RowPatch(map[], []);
    for i := 0 to |c.fields|
      invariant WriteFields(desired, c.fields[..i]) == Ok(patch)
    {
      var f := c.fields[i];
      assert c.fields[..i + 1][..i] == c.fields[..i];
      var v := Get(desired, f.id);
      if !Valid(f, v) {
        WriteStops(desired, c.fields, i);
        return Err("Invalid or unmapped value");
      }
      var stored := Stored(f, v);
      if stored.Some? {
        patch := patch.(put := patch.put[f.property := stored.value]);
      } else {
        patch := patch.(remove := patch.remove + [f.property]);
      }
    }
    assert c.fields[..|c.fields|] == c.fields;
    var title := TitleField(c.fields);
    if title.Some? {
      patch := patch.(put := patch.put[Name := Get(desired, title.value.id)]);
    }
    return Ok(patch);
  }

  // ----- The round trip -----

  ghost predicate DistinctProperties(fields: seq<Field>) {
    forall i, j :: 0 <= i < j < |fields| ==> fields[i].property != fields[j].property
  }

  /** A mapping without clashes: distinct ids and properties, usable options, at
      most one title, and no field stored in a property that means something else. */
  ghost predicate GoodFields(c: Config) {
    && DistinctIds(c.fields)
    && DistinctProperties(c.fields)
    && (forall i :: 0 <= i < |c.fields| ==>
          && (c.fields[i].options.Some? ==> GoodChoices(c.fields[i].options.value))
          && c.fields[i].property !in {Parent, IsA, LocalId, c.identity, c.arrival}
          && (c.fields[i].property == Name ==> c.fields[i].kind.Title?))
    && (forall i, j :: 0 <= i < j < |c.fields| ==> !(c.fields[i].kind.Title? && c.fields[j].kind.Title?))
  }

  ghost predicate Written(desired: Projection, fields: seq<Field>, patch: RowPatch) {
    && (forall i :: 0 <= i < |fields| ==>
          var f, v := fields[i], Get(desired, fields[i].id);
          && Valid(f, v)
          && (Stored(f, v).Some? ==> f.property in patch.put && patch.put[f.property] == Stored(f, v).value && f.property !in patch.remove)
          && (Stored(f, v).None? ==> f.property in patch.remove && f.property !in patch.put))
    && (forall p :: p in patch.put || p in patch.remove ==> exists i :: 0 <= i < |fields| && fields[i].property == p)
  }

  lemma {:induction false} WriteFieldsOk(desired: Projection, fields: seq<Field>)
    requires DistinctProperties(fields)
    ensures WriteFields(desired, fields).Ok? <==> forall i :: 0 <= i < |fields| ==> Valid(fields[i], Get(desired, fields[i].id))
    ensures WriteFields(desired, fields).Ok? ==> Written(desired, fields, WriteFields(desired, fields).value)
  {
    if fields != [] {
      var n := |fields| - 1;
      WriteFieldsOk(desired, fields[..n]);
      if WriteFields(desired, fields).Ok? {
        WrittenGrows(desired, fields, WriteFields(desired, fields[..n]).value, WriteFields(desired, fields).value);
      } else if forall i :: 0 <= i < |fields| ==> Valid(fields[i], Get(desired, fields[i].id)) {
        forall i | 0 <= i < n ensures Valid(fields[..n][i], Get(desired, fields[..n][i].id)) {
          assert fields[..n][i] == fields[i];
        }
      }
    }
  }

  lemma WrittenGrows(desired: Projection, fields: seq<Field>, before: RowPatch, after: RowPatch)
    requires fields != [] && DistinctProperties(fields)
    requires Written(desired, fields[..|fields| - 1], before)
    requires WriteField(before, fields[|fields| - 1], Get(desired, fields[|fields| - 1].id)) == Ok(after)
    ensures Written(desired, fields, after)
  {
    var n := |fields| - 1;
    assert fields[n].property !in before.put && fields[n].property !in before.remove;
    forall i | 0 <= i < |fields|
      ensures var f, v := fields[i], Get(desired, fields[i].id);
        && Valid(f, v)
        && (Stored(f, v).Some? ==> f.property in after.put && after.put[f.property] == Stored(f, v).value && f.property !in after.remove)
        && (Stored(f, v).None? ==> f.property in after.remove && f.property !in after.put)
    {
      if i < n {
        assert fields[..n][i] == fields[i];
        assert fields[i].property != fields[n].property;
      }
    }
    forall p | p in after.put || p in after.remove ensures exists i :: 0 <= i < |fields| && fields[i].property == p {
      if p in before.put || p in before.remove {
        var k :| 0 <= k < n && fields[..n][k].property == p;
        assert fields[k].property == p;
      } else {
        assert fields[n].property == p;
      }
    }
  }

  lemma {:induction false} TitleFieldFound(fields: seq<Field>)
    ensures TitleField(fields).Some? ==> exists i :: 0 <= i < |fields| && fields[i] == TitleField(fields).value && fields[i].kind.Title?
    ensures TitleField(fields).None? ==> forall i :: 0 <= i < |fields| ==> !fields[i].kind.Title?
  {
    if fields != [] {
      if fields[0].kind.Title? {
        assert fields[0] == TitleField(fields).value;
      } else {
        TitleFieldFound(fields[1..]);
        if TitleField(fields).Some? {
          var i :| 0 <= i < |fields[1..]| && fields[1..][i] == TitleField(fields[1..]).value && fields[1..][i].kind.Title?;
          assert fields[i + 1] == TitleField(fields).value;
        } else {
          forall i | 0 <= i < |fields| ensures !fields[i].kind.Title? {
            if i > 0 {
              assert fields[1..][i - 1] == fields[i];
            }
          }
        }
      }
    }
  }

  /** With at most one title, any title field is the one `find` returns. */
  lemma TitleIs(c: Config, i: nat)
    requires GoodFields(c) && i < |c.fields| && c.fields[i].kind.Title?
    ensures TitleField(c.fields) == Some(c.fields[i])
  {
    TitleFieldFound(c.fields);
  }

  /** The row carries everything the patch wrote and nothing it removed. */
  ghost predicate Carries(row: Row, patch: RowPatch) {
    && (forall p :: p in patch.put ==> p in row && row[p] == patch.put[p])
    && (forall p :: p in patch.remove ==> p !in row)
  }

  function PatchedRow(row: Row, patch: RowPatch): Row {
    map p | p in row.Keys + patch.put.Keys && p !in patch.remove :: if p in patch.put then patch.put[p] else row[p]
  }

  lemma {:induction false} ChoiceIdsOfTags(f: Field, ids: seq<NotionId>)
    requires f.options.Some? && GoodChoices(f.options.value)
    requires forall i :: 0 <= i < |ids| ==> Mapped(f, ids[i])
    ensures ChoiceIds(f.options.value, Tags(f, ids)) == Ok(ids)
  {
    if ids != [] {
      TagRoundTrip(f.options.value, ids[0]);
      ChoiceIdsOfTags(f, ids[1..]);
      assert Tags(f, ids)[1..] == Tags(f, ids[1..]);
      assert ids == [ids[0]] + ids[1..];
    }
  }

  lemma SortSingle(id: string)
    ensures Sort([id]) == [id]
  {
    SortFixpoint([id]);
  }

  lemma StoredReadsBack(f: Field, v: Value)
    requires f.options.Some? ==> GoodChoices(f.options.value)
    requires Valid(f, v) && Stored(f, v).Some?
    requires f.options.Some? && (f.kind.MultiSelect? || IsSelect(f.kind))
    ensures SelectValue(f, Stored(f, v).value) == Ok(Settled(f, v))
  {
    if f.kind.MultiSelect? {
      ChoiceIdsOfTags(f, v.ids);
    } else if v.Id? {
      ChoiceIdsOfTags(f, [v.id]);
      SortSingle(v.id);
      TagRoundTrip(f.options.value, v.id);
    }
  }

  /** Options belong to the select kinds, as the setup writes them. */
  ghost predicate OptionsOnSelects(c: Config) {
    forall i :: 0 <= i < |c.fields| ==> (c.fields[i].options.Some? <==> IsSelect(c.fields[i].kind) || c.fields[i].kind.MultiSelect?)
  }

  /** The whole patch is the fields' patch with the title mirrored into the name. */
  lemma PatchMeans(patch: RowPatch, desired: Projection, c: Config)
    requires GoodFields(c) && RowPatchOf(desired, c) == Ok(patch)
    ensures WriteFields(desired, c.fields).Ok? && Written(desired, c.fields, WriteFields(desired, c.fields).value)
    ensures var fields, title := WriteFields(desired, c.fields).value, TitleField(c.fields);
      patch == if title.Some? then fields.(put := fields.put[Name := Get(desired, title.value.id)]) else fields
  {
    assert DistinctProperties(c.fields);
    hide GoodFields, WriteFields, Written;
    WriteFieldsOk(desired, c.fields);
  }

  lemma TitleStored(f: Field, v: Value)
    requires f.kind.Title? && Valid(f, v)
    ensures Stored(f, v) == Some(v)
  {
  }

  lemma NotTheName(c: Config, i: nat)
    requires GoodFields(c) && i < |c.fields| && !c.fields[i].kind.Title?
    ensures c.fields[i].property != Name
  {
  }

  /** What the whole patch says about one field. */
  lemma PatchOfField(patch: RowPatch, desired: Projection, c: Config, i: nat)
    requires GoodFields(c) && i < |c.fields|
    requires RowPatchOf(desired, c) == Ok(patch)
    ensures var f, v := c.fields[i], Get(desired, c.fields[i].id);
      && Valid(f, v)
      && (Stored(f, v).Some? ==> f.property in patch.put && patch.put[f.property] == Stored(f, v).value)
      && (Stored(f, v).None? ==> f.property in patch.remove)
      && (f.kind.Title? ==> Name in patch.put && patch.put[Name] == v && Stored(f, v) == Some(v))
  {
    hide GoodFields, Stored, Valid, OptionsOnSelects, RowPatchOf, WriteFields, TitleField;
    PatchMeans(patch, desired, c);
    var f, v := c.fields[i], Get(desired, c.fields[i].id);
    var fields := WriteFields(desired, c.fields).value;
    assert Valid(f, v);
    if f.kind.Title? {
      TitleIs(c, i);
      TitleStored(f, v);
      assert patch.put == fields.put[Name := v];
    } else {
      NotTheName(c, i);
    }
  }

  lemma RowFieldReadsBack(row: Row, patch: RowPatch, baseline: Option<Projection>, f: Field, v: Value)
    requires f.options.Some? ==> GoodChoices(f.options.value)
    requires f.options.Some? <==> IsSelect(f.kind) || f.kind.MultiSelect?
    requires f.property == Name ==> f.kind.Title?
    requires Valid(f, v) && Carries(row, patch)
    requires Stored(f, v).Some? ==> f.property in patch.put && patch.put[f.property] == Stored(f, v).value
    requires Stored(f, v).None? ==> f.property in patch.remove
    requires f.kind.Title? ==> Name in patch.put && patch.put[Name] == v
    ensures ReadRowField(row, baseline)(f) == Ok(Some(Settled(f, v)))
  {
    SettledValid(f, v);
    if f.options.Some? {
      StoredReadsBack(f, v);
    } else if f.kind.Title? {
      assert Get(row, Name) == v;
      assert TitleValue(row, f, baseline) == Ok(v);
    }
  }

  /** Round trip of a row: a table row that carries the patch projects to the
      desired values, multi-selects sorted, whatever baseline is consulted. */
  lemma RowRoundTrip(row: Row, desired: Projection, baseline: Option<Projection>, c: Config)
    requires GoodFields(c) && OptionsOnSelects(c)
    requires RowPatchOf(desired, c).Ok?
    requires InTable(row, c) && HasClass(row, c)
    requires Carries(row, RowPatchOf(desired, c).value)
    ensures RowProjection(row, c, baseline) == Ok(SettledProjection(desired, c))
  {
    hide ReadRowField, RowPatchOf;
    var patch := RowPatchOf(desired, c).value;
    var s := SettledProjection(desired, c);
    forall i | 0 <= i < |c.fields|
      ensures c.fields[i].id in s && ReadRowField(row, baseline)(c.fields[i]) == Ok(Some(s[c.fields[i].id]))
    {
      PatchOfField(patch, desired, c, i);
      SettledField(desired, c, i);
      RowFieldReadsBack(row, patch, baseline, c.fields[i], Get(desired, c.fields[i].id));
    }
    CollectedUnique(c.fields, ReadRowField(row, baseline), s);
  }

  /** Writing a row and reading it back gives exactly the desired projection
      precisely when its multi-selects are sorted. */
  lemma RowRoundTripExact(row: Row, desired: Projection, baseline: Option<Projection>, c: Config)
    requires GoodFields(c) && OptionsOnSelects(c)
    requires RowPatchOf(desired, c).Ok?
    requires desired.Keys == (set i | 0 <= i < |c.fields| :: c.fields[i].id)
    requires InTable(row, c) && HasClass(row, c)
    ensures RowProjection(PatchedRow(row, RowPatchOf(desired, c).value), c, baseline) == Ok(desired) <==> Canonical(desired, c)
  {
    PatchedRowCarries(row, desired, c);
    RowRoundTrip(PatchedRow(row, RowPatchOf(desired, c).value), desired, baseline, c);
    CanonicalIsSettled(desired, c);
  }

  lemma PatchedRowCarries(row: Row, desired: Projection, c: Config)
    requires GoodFields(c)
    requires RowPatchOf(desired, c).Ok?
    ensures var patch := RowPatchOf(desired, c).value;
      && (forall p :: p in patch.put ==> p !in patch.remove)
      && (forall p :: p in patch.put || p in patch.remove ==> p !in {Parent, IsA, LocalId, c.identity, c.arrival} || p == Name)
      && Name !in patch.remove
      && Carries(PatchedRow(row, patch), patch)
  {
    var patch := RowPatchOf(desired, c).value;
    var written := WriteFields(desired, c.fields).value;
    WriteFieldsOk(desired, c.fields);
    if Name in patch.remove {
      var i :| 0 <= i < |c.fields| && c.fields[i].property == Name;
      PatchOfField(patch, desired, c, i);
      assert false;
    }
  }

  /** A row that projects is canonical: every mapped field, valid, multi-selects sorted. */
  lemma RowProjectionCanonical(row: Row, c: Config, baseline: Option<Projection>)
    requires DistinctIds(c.fields) && OptionsOnSelects(c)
    requires RowProjection(row, c, baseline).Ok?
    ensures Canonical(RowProjection(row, c, baseline).value, c)
    ensures forall i :: 0 <= i < |c.fields| ==> Valid(c.fields[i], RowProjection(row, c, baseline).value[c.fields[i].id])
  {
    var read := ReadRowField(row, baseline);
    forall i | 0 <= i < |c.fields| && read(c.fields[i]).Ok?
      ensures ReadsSettled(c.fields[i], read(c.fields[i]).value)
    {
      SelectSettled(c.fields[i], row, baseline);
    }
    CollectCanonical(c, read);
  }

  lemma SelectSettled(f: Field, row: Row, baseline: Option<Projection>)
    requires f.options.Some? <==> IsSelect(f.kind) || f.kind.MultiSelect?
    requires ReadRowField(row, baseline)(f).Ok?
    ensures ReadsSettled(f, ReadRowField(row, baseline)(f).value)
  {
    if f.kind.MultiSelect? {
      var raw := TitleValue(row, f, baseline).value;
      var found := ChoiceIds(f.options.value, if raw.Links? then raw.links else []).value;
      SortIdempotent(found);
    }
  }
}
