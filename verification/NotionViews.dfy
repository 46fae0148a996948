/** Notion views and Atomic views: projections, and the patches that write them. */
module NotionViews {
  import opened Wrappers
  import opened TextChunks
  import opened NotionModel
  import opened NotionRows

  /** `settings` stands for widths, covers and whatever else only the provider knows. */
  datatype Column = Column(propertyId: NotionId, visible: Option<bool>, settings: map<string, string>)

  datatype GroupBy = GroupBy(kind: Option<FieldType>, propertyId: Option<NotionId>, byOption: bool, settings: map<string, string>)

  datatype ViewConfig = ViewConfig(
    subtasksShown: bool,
    subGrouped: bool,
    properties: Option<seq<Column>>,
    groupBy: Option<GroupBy>,
    settings: map<string, string>)

  datatype View = View(
    dataSource: NotionId,
    kind: string,
    name: Option<Text>,
    filtered: bool,
    sorts: nat,
    quickFilters: nat,
    configuration: Option<ViewConfig>)

  const KNOWN_KINDS := {"table", "board"}

  function ViewProjection(name: Value, columns: seq<NotionId>, group: Option<NotionId>, kind: string): (p: Projection) {
    map["name" := name,
        "columns" := Ids(columns),
        "group" := if group.Some? then Id(group.value) else Null,
        "kind" := Id(kind)]
  }

  lemma ViewProjectionParts(name: Value, columns: seq<NotionId>, group: Option<NotionId>, kind: string)
    ensures var p := ViewProjection(name, columns, group, kind);
      && p.Keys == {"name", "columns", "group", "kind"}
      && p["name"] == name
      && p["columns"] == Ids(columns)
      && p["group"] == (if group.Some? then Id(group.value) else Null)
      && p["kind"] == Id(kind)
  {
  }

  function FieldById(fields: seq<Field>, id: NotionId): Option<Field> {
    if fields == [] then None else if fields[0].id == id then Some(fields[0]) else FieldById(fields[1..], id)
  }

  function FieldByProperty(fields: seq<Field>, property: Iri): Option<Field> {
    if fields == [] then None
    else if fields[0].property == property then Some(fields[0])
    else FieldByProperty(fields[1..], property)
  }

  lemma {:induction false} FieldByIdFound(fields: seq<Field>, id: NotionId)
    ensures FieldById(fields, id).Some? ==> FieldById(fields, id).value.id == id && FieldById(fields, id).value in fields
    ensures FieldById(fields, id).None? <==> forall i :: 0 <= i < |fields| ==> fields[i].id != id
  {
    if fields != [] && fields[0].id != id {
      FieldByIdFound(fields[1..], id);
      if FieldById(fields, id).None? {
        assert fields == [fields[0]] + fields[1..];
      }
    }
  }

  lemma {:induction false} FieldByPropertyFound(fields: seq<Field>, i: nat)
    requires i < |fields| && DistinctProperties(fields)
    ensures FieldByProperty(fields, fields[i].property) == Some(fields[i])
  {
    if i > 0 {
      FieldByPropertyFound(fields[1..], i - 1);
    }
  }

  // ----- Notion's side -----

  function Configuration(view: View): ViewConfig {
    if view.configuration.Some? then view.configuration.value else ViewConfig(false, false, None, None, map[])
  }

  function VisibleIds(columns: seq<Column>): seq<NotionId> {
    if columns == [] then []
    else (if columns[0].visible != Some(false) then [columns[0].propertyId] else []) + VisibleIds(columns[1..])
  }

  function FieldIds(fields: seq<Field>): seq<NotionId> {
    if fields == [] then [] else [fields[0].id] + FieldIds(fields[1..])
  }

  function ColumnsOf(cfg: ViewConfig, c: Config): seq<NotionId> {
    if cfg.properties.Some? then VisibleIds(cfg.properties.value) else FieldIds(c.fields)
  }

  predicate AllMapped(ids: seq<NotionId>, c: Config) {
    forall i :: 0 <= i < |ids| ==> FieldById(c.fields, ids[i]).Some?
  }

  function GroupOf(cfg: ViewConfig): Option<NotionId> {
    if cfg.groupBy.Some? then cfg.groupBy.value.propertyId else None
  }

  predicate Groupable(id: NotionId, c: Config) {
    FieldById(c.fields, id).Some? && FieldById(c.fields, id).value.options.Some?
  }

  /** JavaScript's truthiness of an optional string. */
  predicate Chosen(id: Option<NotionId>) {
    id.Some? && id.value != ""
  }

  function RemoteViewProjection(view: View, c: Config): Result<Projection> {
    var cfg := Configuration(view);
    var columns, group := ColumnsOf(cfg, c), GroupOf(cfg);
    if view.dataSource != c.dataSource || view.kind !in KNOWN_KINDS then Err("Unsupported view type or foreign data source")
    else if view.filtered || view.sorts > 0 || view.quickFilters > 0 then Err("View filters/sorts need a lossless mapping")
    else if cfg.subtasksShown || cfg.subGrouped then Err("View subtasks/subgroups are not mapped")
    else if !AllMapped(columns, c) then Err("View contains unmapped visible properties")
    else if cfg.groupBy.Some? && cfg.groupBy.value.kind == Some(Status) && !cfg.groupBy.value.byOption
    then Err("Status groups are not individual Atomic kanban options")
    else if columns == [] then Err("A connected view needs visible columns")
    else if Chosen(group) && !Groupable(group.value, c) then Err("View grouping must use a mapped select/status property")
    else if view.kind == "board" && !Chosen(group) then Err("Board requires an explicit mapped grouping property")
    else if view.kind == "table" && Chosen(group) then Err("Grouped table views are not mapped yet")
    else Ok(ViewProjection(Text(if view.name.Some? then view.name.value else []), columns, group, view.kind))
  }

  function SettingsOf(columns: seq<Column>, id: NotionId): map<string, string> {
    if columns == [] then map[]
    else if columns[0].propertyId == id then columns[0].settings
    else SettingsOf(columns[1..], id)
  }

  function Shown(existing: seq<Column>, ids: seq<NotionId>): (shown: seq<Column>) {
    if ids == [] then []
    else [Column(ids[0], Some(true), SettingsOf(existing, ids[0]))] + Shown(existing, ids[1..])
  }

  function Hidden(existing: seq<Column>, ids: seq<NotionId>): (hidden: seq<Column>) {
    if existing == [] then []
    else (if existing[0].propertyId in ids then [] else [existing[0].(visible := Some(false))]) + Hidden(existing[1..], ids)
  }

  datatype ViewPatch = ViewPatch(name: Option<Value>, configuration: Option<ViewConfig>)

  function Regrouped(cfg: ViewConfig, f: Field): ViewConfig {
    cfg.(groupBy := Some(GroupBy(Some(f.kind), Some(f.id), f.kind.Status?, map["sort" := "manual"])))
  }

  function RemoteViewPatch(desired: Projection, current: View, c: Config): Result<ViewPatch> {
    var before :- RemoteViewProjection(current, c);
    var name := if Get(desired, "name") != Get(before, "name") then Some(Get(desired, "name")) else None;
    if Get(desired, "columns") == Get(before, "columns") && Get(desired, "group") == Get(before, "group")
    then Ok(ViewPatch(name, None))
    else if !Get(desired, "columns").Ids? then Err("Invalid columns")
    else
      var cfg := Configuration(current);
      var ids := Get(desired, "columns").ids;
      var existing := if cfg.properties.Some? then cfg.properties.value else [];
      var placed := cfg.(properties := Some(Shown(existing, ids) + Hidden(existing, ids)));
      if Get(desired, "group") == Get(before, "group") then Ok(ViewPatch(name, Some(placed)))
      else
        var group := Get(desired, "group");
        if !group.Id? || !Groupable(group.id, c) || Get(desired, "kind") != Id("board")
        then Err("Unsupported view grouping change")
        else Ok(ViewPatch(name, Some(Regrouped(placed, FieldById(c.fields, group.id).value))))
  }

  /** The provider replaces what the patch names and leaves the rest. */
  function PatchedView(view: View, patch: ViewPatch): View {
    view.(name := if patch.name.Some? && patch.name.value.Text? then Some(patch.name.value.text) else view.name,
          configuration := if patch.configuration.Some? then patch.configuration else view.configuration)
  }

  lemma {:induction false} ShownIsVisible(existing: seq<Column>, ids: seq<NotionId>)
    ensures VisibleIds(Shown(existing, ids)) == ids
  {
    if ids != [] {
      ShownIsVisible(existing, ids[1..]);
      assert Shown(existing, ids)[1..] == Shown(existing, ids[1..]);
    }
  }

  lemma {:induction false} HiddenIsInvisible(existing: seq<Column>, ids: seq<NotionId>)
    ensures VisibleIds(Hidden(existing, ids)) == []
  {
    if existing != [] {
      HiddenIsInvisible(existing[1..], ids);
      if existing[0].propertyId !in ids {
        assert Hidden(existing, ids)[1..] == Hidden(existing[1..], ids);
      } else {
        assert Hidden(existing, ids) == Hidden(existing[1..], ids);
      }
    }
  }

  lemma {:induction false} VisibleConcat(a: seq<Column>, b: seq<Column>)
    ensures VisibleIds(a + b) == VisibleIds(a) + VisibleIds(b)
  {
    if a == [] {
      assert a + b == b;
    } else {
      assert (a + b)[1..] == a[1..] + b;
      VisibleConcat(a[1..], b);
    }
  }

  lemma PlacedIsVisible(existing: seq<Column>, ids: seq<NotionId>)
    ensures VisibleIds(Shown(existing, ids) + Hidden(existing, ids)) == ids
  {
    ShownIsVisible(existing, ids);
    HiddenIsInvisible(existing, ids);
    VisibleConcat(Shown(existing, ids), Hidden(existing, ids));
    assert ids + [] == ids;
  }

  /** A view projection as the two sides produce them: the four members, nothing else. */
  predicate IsViewProjection(p: Projection) {
    && p.Keys == {"name", "columns", "group", "kind"}
    && p["columns"].Ids?
    && (p["group"].Null? || p["group"].Id?)
    && p["kind"].Id?
  }

  lemma RebuildView(p: Projection)
    requires IsViewProjection(p)
    ensures p == ViewProjection(p["name"], p["columns"].ids, if p["group"].Id? then Some(p["group"].id) else None, p["kind"].id)
  {
  }

  /** The configuration with the desired columns placed. */
  function WithColumns(cfg: ViewConfig, ids: seq<NotionId>): ViewConfig {
    var existing := if cfg.properties.Some? then cfg.properties.value else [];
    cfg.(properties := Some(Shown(existing, ids) + Hidden(existing, ids)))
  }

  /** The three forms of a patch that goes through: the configuration left alone,
      columns placed, or columns placed and the view regrouped. */
  lemma ViewPatchCases(current: View, desired: Projection, c: Config)
    requires IsViewProjection(desired)
    requires RemoteViewPatch(desired, current, c).Ok?
    ensures var patch, cfg := RemoteViewPatch(desired, current, c).value, Configuration(current);
      var name, group := Text(if current.name.Some? then current.name.value else []), if GroupOf(cfg).Some? then Id(GroupOf(cfg).value) else Null;
      && patch.name == (if desired["name"] == name then None else Some(desired["name"]))
      && match patch.configuration
         case None => desired["columns"] == Ids(ColumnsOf(cfg, c)) && desired["group"] == group
         case Some(after) =>
           if desired["group"] == group then after == WithColumns(cfg, desired["columns"].ids)
           else
             && desired["group"].Id? && Groupable(desired["group"].id, c) && desired["kind"] == Id("board")
             && after == Regrouped(WithColumns(cfg, desired["columns"].ids), FieldById(c.fields, desired["group"].id).value)
  {
    hide VisibleIds, Shown, Hidden, FieldIds, AllMapped, Chosen;
    var cfg := Configuration(current);
    ViewProjectionParts(Text(if current.name.Some? then current.name.value else []), ColumnsOf(cfg, c), GroupOf(cfg), current.kind);
    hide ViewProjection, ColumnsOf;
  }

  lemma GroupableFound(id: NotionId, c: Config)
    requires Groupable(id, c)
    ensures FieldById(c.fields, id).Some? && FieldById(c.fields, id).value.id == id
  {
    FieldByIdFound(c.fields, id);
  }

  /** What the view shows after a patch that went through. */
  lemma PatchedViewShows(current: View, desired: Projection, c: Config)
    requires IsViewProjection(desired)
    requires RemoteViewPatch(desired, current, c).Ok?
    ensures var after := PatchedView(current, RemoteViewPatch(desired, current, c).value);
      && ColumnsOf(Configuration(after), c) == desired["columns"].ids
      && (GroupOf(Configuration(after)) == if desired["group"].Id? then Some(desired["group"].id) else None)
      && (desired["name"].Text? ==> (if after.name.Some? then after.name.value else []) == desired["name"].text)
      && after.kind == current.kind
  {
    hide RemoteViewPatch, RemoteViewProjection, VisibleIds, Shown, Hidden, FieldById, Groupable;
    ViewPatchCases(current, desired, c);
    if desired["group"].Id? && Groupable(desired["group"].id, c) {
      GroupableFound(desired["group"].id, c);
    }
    var cfg := Configuration(current);
    PlacedIsVisible(if cfg.properties.Some? then cfg.properties.value else [], desired["columns"].ids);
  }

  /** A view patch that goes through reads back as the desired projection exactly
      when the desired name is text, the kind is the view's own, there are
      columns and all are mapped, and no group has the empty id. */
  lemma ViewRoundTrip(current: View, desired: Projection, c: Config)
    requires IsViewProjection(desired)
    requires RemoteViewPatch(desired, current, c).Ok?
    ensures RemoteViewProjection(PatchedView(current, RemoteViewPatch(desired, current, c).value), c) == Ok(desired) <==>
      && desired["name"].Text?
      && desired["kind"] == Id(current.kind)
      && desired["columns"].ids != [] && AllMapped(desired["columns"].ids, c)
      && (desired["group"] == Id("") ==> current.kind == "table")
  {
    var patch := RemoteViewPatch(desired, current, c).value;
    var after := PatchedView(current, patch);
    PatchedViewShows(current, desired, c);
    ViewReads(after, desired, c);
    PatchedViewChecks(current, desired, c);
  }

  /** A view projects to `desired` exactly when it shows its four members and passes every check. */
  lemma ViewReads(view: View, desired: Projection, c: Config)
    requires IsViewProjection(desired)
    ensures var cfg := Configuration(view);
      RemoteViewProjection(view, c) == Ok(desired) <==>
        && RemoteViewProjection(view, c).Ok?
        && desired["name"] == Text(if view.name.Some? then view.name.value else [])
        && desired["columns"].ids == ColumnsOf(cfg, c)
        && desired["group"] == (if GroupOf(cfg).Some? then Id(GroupOf(cfg).value) else Null)
        && desired["kind"] == Id(view.kind)
  {
    var cfg := Configuration(view);
    RebuildView(desired);
    ViewProjectionParts(Text(if view.name.Some? then view.name.value else []), ColumnsOf(cfg, c), GroupOf(cfg), view.kind);
  }

  /** Everything about a view that no patch of ours can change. */
  predicate Plain(view: View, c: Config) {
    && view.dataSource == c.dataSource && view.kind in KNOWN_KINDS
    && !view.filtered && view.sorts <= 0 && view.quickFilters <= 0
    && !Configuration(view).subtasksShown && !Configuration(view).subGrouped
  }

  /** A status group that is not split by option. */
  predicate Coarse(cfg: ViewConfig) {
    cfg.groupBy.Some? && cfg.groupBy.value.kind == Some(Status) && !cfg.groupBy.value.byOption
  }

  lemma ViewPasses(view: View, c: Config)
    ensures var cfg := Configuration(view);
      RemoteViewProjection(view, c).Ok? <==>
        && Plain(view, c) && !Coarse(cfg)
        && AllMapped(ColumnsOf(cfg, c), c) && ColumnsOf(cfg, c) != []
        && (Chosen(GroupOf(cfg)) ==> Groupable(GroupOf(cfg).value, c))
        && (view.kind == "board" ==> Chosen(GroupOf(cfg))) && (view.kind == "table" ==> !Chosen(GroupOf(cfg)))
  {
    hide AllMapped, Groupable, Chosen, ColumnsOf, GroupOf;
  }

  lemma PatchStaysPlain(current: View, patch: ViewPatch, ids: seq<NotionId>, c: Config)
    requires Plain(current, c)
    requires patch.configuration.Some? ==>
      || patch.configuration.value == WithColumns(Configuration(current), ids)
      || exists f :: patch.configuration.value == Regrouped(WithColumns(Configuration(current), ids), f)
    ensures Plain(PatchedView(current, patch), c)
  {
    hide Shown, Hidden;
  }

  /** Which checks a patched view still has to pass. */
  lemma PatchedViewChecks(current: View, desired: Projection, c: Config)
    requires IsViewProjection(desired)
    requires RemoteViewPatch(desired, current, c).Ok?
    ensures var after := PatchedView(current, RemoteViewPatch(desired, current, c).value);
      desired["kind"] == Id(current.kind) ==>
        (RemoteViewProjection(after, c).Ok? <==>
          && desired["columns"].ids != [] && AllMapped(desired["columns"].ids, c)
          && (desired["group"] == Id("") ==> current.kind == "table"))
  {
    assert RemoteViewProjection(current, c).Ok?;
    hide RemoteViewPatch, RemoteViewProjection, VisibleIds, Shown, Hidden, FieldById, ViewProjection, Plain, AllMapped;
    var after := PatchedView(current, RemoteViewPatch(desired, current, c).value);
    ViewPasses(current, c);
    ViewPasses(after, c);
    PatchedViewShows(current, desired, c);
    ViewPatchCases(current, desired, c);
    PatchStaysPlain(current, RemoteViewPatch(desired, current, c).value, desired["columns"].ids, c);
    if desired["group"].Id? && Groupable(desired["group"].id, c) {
      GroupableFound(desired["group"].id, c);
    }
  }

  /** Provider-only settings survive: a shown column keeps the settings it had,
      a column that is not shown is only hidden, and nothing else in the
      configuration moves unless the grouping itself changes. */
  lemma ViewPatchKeepsSettings(current: View, desired: Projection, c: Config)
    requires IsViewProjection(desired)
    requires RemoteViewPatch(desired, current, c).Ok? && RemoteViewPatch(desired, current, c).value.configuration.Some?
    ensures var cfg, after := Configuration(current), RemoteViewPatch(desired, current, c).value.configuration.value;
      var existing := if cfg.properties.Some? then cfg.properties.value else [];
      && after.properties.Some?
      && (forall i :: 0 <= i < |existing| && existing[i].propertyId !in desired["columns"].ids ==>
            existing[i].(visible := Some(false)) in after.properties.value)
      && (forall i :: 0 <= i < |desired["columns"].ids| ==>
            i < |after.properties.value| &&
            after.properties.value[i] == Column(desired["columns"].ids[i], Some(true), SettingsOf(existing, desired["columns"].ids[i])))
      && |after.properties.value| == |desired["columns"].ids| + |Hidden(existing, desired["columns"].ids)|
      && (after.groupBy == cfg.groupBy || desired["group"] != Get(RemoteViewProjection(current, c).value, "group"))
      && after.settings == cfg.settings && after.subtasksShown == cfg.subtasksShown && after.subGrouped == cfg.subGrouped
  {
    var cfg := Configuration(current);
    var existing := if cfg.properties.Some? then cfg.properties.value else [];
    ShownKeeps(existing, desired["columns"].ids);
    HiddenKeeps(existing, desired["columns"].ids);
  }

  lemma {:induction false} ShownKeeps(existing: seq<Column>, ids: seq<NotionId>)
    ensures |Shown(existing, ids)| == |ids|
    ensures forall i :: 0 <= i < |ids| ==> Shown(existing, ids)[i] == Column(ids[i], Some(true), SettingsOf(existing, ids[i]))
  {
    if ids != [] {
      ShownKeeps(existing, ids[1..]);
    }
  }

  lemma {:induction false} HiddenKeeps(existing: seq<Column>, ids: seq<NotionId>)
    ensures forall i :: 0 <= i < |existing| && existing[i].propertyId !in ids ==> existing[i].(visible := Some(false)) in Hidden(existing, ids)
  {
    if existing != [] {
      HiddenKeeps(existing[1..], ids);
      forall i | 0 <= i < |existing| && existing[i].propertyId !in ids
        ensures existing[i].(visible := Some(false)) in Hidden(existing, ids)
      {
        if i > 0 {
          assert existing[1..][i - 1] == existing[i];
        }
      }
    }
  }

  // ----- Atomic's side -----

  predicate Restricted(row: Row) {
    || (Get(row, ViewFilters).Links? && row[ViewFilters].links != [])
    || !(Get(row, ViewSortBy).Missing? || Get(row, ViewSortBy).Null?)
  }

  function LocalKind(row: Row): Value {
    if Get(row, ViewKind) == Id("kanban") then Id("board") else Get(row, ViewKind)
  }

  function ColumnIds(fields: seq<Field>, properties: seq<Iri>): Result<seq<NotionId>> {
    if properties == [] then Ok([])
    else
      var f := FieldByProperty(fields, properties[0]);
      if f.None? then Err("View uses an unmapped Atomic property")
      else
        var rest :- ColumnIds(fields, properties[1..]);
        Ok([f.value.id] + rest)
  }

  function LocalGroup(row: Row, c: Config): Result<Option<NotionId>> {
    var group := Get(row, Group);
    if !group.Link? || !Truthy(group.link) then Ok(None)
    else if FieldByProperty(c.fields, group.link).None? then Err("View uses an unmapped Atomic property")
    else Ok(Some(FieldByProperty(c.fields, group.link).value.id))
  }

  function LocalViewProjection(row: Row, c: Config, binding: ViewBinding): Result<Projection> {
    if Restricted(row) then Err("Connected view filters/sorts are not mapped yet")
    else if LocalKind(row) != Id(binding.kind) then Err("Changing a connected view type is not supported")
    else
      var columns :- ColumnIds(c.fields, if Get(row, Columns).Links? then row[Columns].links else []);
      if columns == [] then Err("Connected view requires explicit visible columns")
      else
        var group :- LocalGroup(row, c);
        Ok(ViewProjection(Get(row, Name), columns, group, binding.kind))
  }

  function PropertiesOf(fields: seq<Field>, ids: seq<NotionId>): Result<seq<Iri>> {
    if ids == [] then Ok([])
    else
      var f := FieldById(fields, ids[0]);
      if f.None? then Err("Unmapped column")
      else
        var rest :- PropertiesOf(fields, ids[1..]);
        Ok([f.value.property] + rest)
  }

  /** What the step writes on the Atomic view. */
  function ViewRowPatch(desired: Projection, c: Config): Result<RowPatch> {
    if !Get(desired, "columns").Ids? then Err("Invalid columns")
    else
      var columns :- PropertiesOf(c.fields, desired["columns"].ids);
      var kind := if Get(desired, "kind") == Id("board") then "kanban" else "table";
      var put := map[Name := Get(desired, "name"), ViewKind := Id(kind), Columns := Links(columns)];
      var group := Get(desired, "group");
      if group.Id? && group.id != "" then
        if FieldById(c.fields, group.id).None? then Err("Unmapped group")
        else Ok(RowPatch(put[Group := Link(FieldById(c.fields, group.id).value.property)], []))
      else Ok(RowPatch(put, [Group]))
  }

  lemma {:induction false} ColumnsRoundTrip(fields: seq<Field>, ids: seq<NotionId>)
    requires DistinctProperties(fields)
    requires PropertiesOf(fields, ids).Ok?
    ensures ColumnIds(fields, PropertiesOf(fields, ids).value) == Ok(ids)
  {
    if ids != [] {
      FieldByIdFound(fields, ids[0]);
      var f := FieldById(fields, ids[0]).value;
      var i :| 0 <= i < |fields| && fields[i] == f;
      FieldByPropertyFound(fields, i);
      ColumnsRoundTrip(fields, ids[1..]);
      assert PropertiesOf(fields, ids).value[1..] == PropertiesOf(fields, ids[1..]).value;
      assert ids == [ids[0]] + ids[1..];
    }
  }

  lemma {:induction false} MappedHaveProperties(ids: seq<NotionId>, c: Config)
    ensures PropertiesOf(c.fields, ids).Ok? <==> AllMapped(ids, c)
  {
    if ids != [] {
      MappedHaveProperties(ids[1..], c);
      assert ids == [ids[0]] + ids[1..];
      if AllMapped(ids, c) {
        assert FieldById(c.fields, ids[0]).Some?;
        assert forall i :: 0 <= i < |ids[1..]| ==> ids[1..][i] == ids[i + 1];
      }
    }
  }

  /** Every mapped property is a real identifier. */
  ghost predicate TruthyProperties(c: Config) {
    forall i :: 0 <= i < |c.fields| ==> Truthy(c.fields[i].property)
  }

  /** An unrestricted Atomic view that carries the patch shows the desired projection. */
  lemma LocalViewRoundTrip(row: Row, desired: Projection, c: Config, binding: ViewBinding)
    requires DistinctProperties(c.fields) && TruthyProperties(c)
    requires IsViewProjection(desired) && desired["columns"].ids != []
    requires binding.kind in KNOWN_KINDS && desired["kind"] == Id(binding.kind)
    requires desired["group"] != Id("")
    requires ViewRowPatch(desired, c).Ok?
    requires !Restricted(row) && Carries(row, ViewRowPatch(desired, c).value)
    ensures LocalViewProjection(row, c, binding) == Ok(desired)
  {
    var patch := ViewRowPatch(desired, c).value;
    RebuildView(desired);
    ColumnsRoundTrip(c.fields, desired["columns"].ids);
    assert Name in patch.put && ViewKind in patch.put && Columns in patch.put;
    assert row[Name] == desired["name"];
    assert row[Columns] == Links(PropertiesOf(c.fields, desired["columns"].ids).value);
    assert LocalKind(row) == Id(binding.kind);
    if desired["group"].Id? {
      FieldByIdFound(c.fields, desired["group"].id);
      var f := FieldById(c.fields, desired["group"].id).value;
      var i :| 0 <= i < |c.fields| && c.fields[i] == f;
      FieldByPropertyFound(c.fields, i);
      assert Group in patch.put && row[Group] == Link(f.property);
    } else {
      assert Group in patch.remove;
    }
  }
}
