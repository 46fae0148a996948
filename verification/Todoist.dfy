/** What an issue list knows about Todoist tasks over complete and partial reads. */
module Todoist {
  import opened Wrappers
  import opened Characters

  datatype Json = Text(text: string) | Number(number: int) | Flag(on: bool) | Null | List(items: seq<Json>) | Object(fields: map<string, Json>)

  datatype Row = Row(resource: string, id: string, name: string, values: map<string, Json>)

  /** One read of a platform: `hasTask` and `collides` say what its ontology holds. */
  datatype Fetched = Fetched(todoist: bool, hasTask: bool, collides: bool, records: seq<Row>, complete: bool)

  /** Todoist's answer to asking for one task by id. */
  datatype Lookup = Answer(status: int, body: Json) | Failure

  const DONE := "done"
  const PRESENCE := "presence"
  const LAST_SEEN := "last-seen"
  const DUE_DAY := "due-day"
  const PRIORITY_LABEL := "priority-label"

  predicate IsPresence(s: string) {
    s == "active" || s == "completed" || s == "deleted" || s == "unavailable" || s == "unconfirmed"
  }

  predicate Settled(presence: string) {
    presence == "completed" || presence == "deleted" || presence == "unavailable"
  }

  predicate IsTask(row: Row) {
    row.resource == "task"
  }

  function ValueOf(values: map<string, Json>, key: string): Option<Json> {
    if key in values then Some(values[key]) else None
  }

  /** Rows from before presence existed count as active. */
  function PresenceOf(row: Row): (p: string)
    ensures IsPresence(p)
  {
    match ValueOf(row.values, PRESENCE)
    case Some(Text(s)) => if IsPresence(s) then s else "active"
    case _ => "active"
  }

  // ----- Projection -----

  predicate StartsWithDay(s: string) {
    && |s| >= 10 && s[4] == '-' && s[7] == '-'
    && forall i :: i in [0, 1, 2, 3, 5, 6, 8, 9] ==> IsDigit(s[i])
  }

  predicate IsInstant(s: string) {
    StartsWithDay(s) && |s| >= 16 && s[10] == 'T' && s[13] == ':' && forall i :: i in [11, 12, 14, 15] ==> IsDigit(s[i])
  }

  function FieldsOf(v: Option<Json>): map<string, Json> {
    match v
    case Some(Object(fields)) => fields
    case _ => map[]
  }

  function DueOf(values: map<string, Json>): Option<Json> {
    var due := FieldsOf(ValueOf(values, "due"));
    match ValueOf(due, "date")
    case Some(Text(s)) => Some(Text(s))
    case _ => ValueOf(due, "datetime")
  }

  function LabelOf(values: map<string, Json>): Option<string> {
    match ValueOf(values, "priority")
    case Some(Number(n)) => if n == 1 then Some("Normal") else if n == 2 then Some("Medium") else if n == 3 then Some("High") else if n == 4 then Some("Urgent") else None
    case _ => None
  }

  function NameOf(row: Row): string {
    match ValueOf(row.values, "content")
    case Some(Text(s)) => if Trim(s) != "" then Trim(s) else row.name
    case _ => row.name
  }

  predicate Checked(values: map<string, Json>) {
    ValueOf(values, "checked") == Some(Flag(true))
  }

  /** A task with the issue list's columns beside Todoist's own. */
  function ProjectRecord(row: Row): Row {
    if !IsTask(row) then row
    else
      var flagged := row.values[DONE := Flag(Checked(row.values))][PRESENCE := Text(if Checked(row.values) then "completed" else "active")];
      var dated := match DueOf(row.values)
        case Some(Text(s)) => if StartsWithDay(s) then flagged[DUE_DAY := Text(s[..10])] else flagged
        case _ => flagged;
      var labelled := if LabelOf(row.values).Some? then dated[PRIORITY_LABEL := Text(LabelOf(row.values).value)] else dated;
      row.(name := NameOf(row), values := labelled)
  }

  function Projected(f: Fetched): seq<Row> {
    if f.todoist && f.hasTask then seq(|f.records|, i requires 0 <= i < |f.records| => ProjectRecord(f.records[i])) else f.records
  }

  // ----- One read -----

  ghost predicate DistinctTasks(rows: seq<Row>) {
    forall i, j :: 0 <= i < j < |rows| && IsTask(rows[i]) && IsTask(rows[j]) ==> rows[i].id != rows[j].id
  }

  function TaskIds(rows: seq<Row>): set<string> {
    set r | r in rows && IsTask(r) :: r.id
  }

  /** The previous tasks to ask for by id: missing from a complete read, and not settled. */
  predicate Absent(row: Row, f: Fetched) {
    f.todoist && f.complete && IsTask(row) && row.id !in TaskIds(f.records) && !Settled(PresenceOf(row))
  }

  function SeenRow(row: Row, seenAt: string): Row {
    if IsTask(row) then row.(values := row.values[LAST_SEEN := Text(seenAt)]) else row
  }

  function Mark(row: Row, presence: string): Row {
    row.(values := row.values[PRESENCE := Text(presence)])
  }

  function Confirmed(row: Row, body: map<string, Json>, seenAt: string): Row {
    var current := ProjectRecord(row.(values := body));
    current.(values := current.values[LAST_SEEN := Text(seenAt)])
  }

  /** Todoist itself returned the task when asked for it. */
  predicate Returned(row: Row, lookups: map<string, Lookup>) {
    && row.id in lookups && lookups[row.id].Answer? && lookups[row.id].status == 200
    && ValueOf(FieldsOf(Some(lookups[row.id].body)), "id") == Some(Text(row.id))
    && ValueOf(FieldsOf(Some(lookups[row.id].body)), "is_deleted") != Some(Flag(true))
  }

  /** The previous tasks by id: a repeated id keeps its first place and its last row. */
  function Kept(previous: seq<Row>): (kept: seq<Row>)
    ensures forall r :: r in kept ==> r in previous && IsTask(r)
  {
    if previous == [] then []
    else
      var before, last := Kept(previous[..|previous| - 1]), previous[|previous| - 1];
      if IsTask(last) then Entered(before, last) else before
  }

  /** `row` entered into rows that are kept by id. */
  function Entered(kept: seq<Row>, row: Row): (r: seq<Row>)
    ensures forall x :: x in r ==> x in kept || x == row
  {
    if kept == [] then [row]
    else if kept[0].id == row.id then [row] + kept[1..]
    else [kept[0]] + Entered(kept[1..], row)
  }

  /** The ids to ask for. */
  function Asked(previous: seq<Row>, f: Fetched): set<string> {
    set r | r in previous && Absent(r, f) :: r.id
  }

  /** A previous task that this read did not list. */
  function CarriedRow(row: Row, asked: set<string>, lookups: map<string, Lookup>, seenAt: string): Row {
    if row.id !in asked then row
    else if row.id !in lookups || lookups[row.id].Failure? then Mark(row, "unconfirmed")
    else if lookups[row.id].status == 404 then Mark(row, "unavailable")
    else
      var body := FieldsOf(Some(lookups[row.id].body));
      if lookups[row.id].status != 200 || ValueOf(body, "id") != Some(Text(row.id)) then Mark(row, "unconfirmed")
      else if ValueOf(body, "is_deleted") == Some(Flag(true)) then Mark(row, "deleted")
      else Confirmed(row, body, seenAt)
  }

  function Seen(rows: seq<Row>, seenAt: string): (r: seq<Row>)
    ensures |r| == |rows|
  {
    seq(|rows|, i requires 0 <= i < |rows| => SeenRow(rows[i], seenAt))
  }

  function Carried(kept: seq<Row>, f: Fetched, asked: set<string>, lookups: map<string, Lookup>, seenAt: string): seq<Row> {
    if kept == [] then []
    else
      var row := kept[|kept| - 1];
      var before := Carried(kept[..|kept| - 1], f, asked, lookups, seenAt);
      if row.id !in TaskIds(f.records) then before + [CarriedRow(row, asked, lookups, seenAt)] else before
  }

  /** All rows after a read: the listed ones, then the previous tasks it lacks. */
  function Rows(previous: seq<Row>, f: Fetched, lookups: map<string, Lookup>, seenAt: string): seq<Row> {
    Seen(Projected(f), seenAt) + Carried(Kept(previous), f, Asked(previous, f), lookups, seenAt)
  }

  function CountOf(rows: seq<Row>, presence: string): nat {
    if rows == [] then 0
    else CountOf(rows[..|rows| - 1], presence) + if IsTask(rows[|rows| - 1]) && PresenceOf(rows[|rows| - 1]) == presence then 1 else 0
  }

  function Reappeared(kept: seq<Row>, rows: seq<Row>): nat {
    if rows == [] then 0
    else
      var row := rows[|rows| - 1];
      Reappeared(kept, rows[..|rows| - 1]) + if IsTask(row) && BackAgain(kept, row.id) then 1 else 0
  }

  predicate BackAgain(kept: seq<Row>, id: string) {
    exists r :: r in kept && r.id == id && PresenceOf(r) != "active"
  }

  datatype Summary = Summary(active: nat, completed: nat, deleted: nat, unavailable: nat, unconfirmed: nat, reappeared: nat, complete: bool)

  datatype Outcome = Outcome(records: seq<Row>, summary: Summary)

  function SummaryOf(rows: seq<Row>, reappeared: nat, complete: bool): Summary {
    Summary(CountOf(rows, "active"), CountOf(rows, "completed"), CountOf(rows, "deleted"), CountOf(rows, "unavailable"), CountOf(rows, "unconfirmed"), reappeared, complete)
  }

  const BAD_INSTANT := "seenAt must be an ISO 8601 date and time"
  const COLLISION := "Todoist projection property collides with provider ontology"

  function Reconcile(previous: seq<Row>, f: Fetched, lookups: map<string, Lookup>, seenAt: string): Result<Outcome> {
    if !IsInstant(seenAt) then Err(BAD_INSTANT)
    else if f.todoist && f.hasTask && f.collides then Err(COLLISION)
    else
      var rows := Rows(previous, f, lookups, seenAt);
      Ok(Outcome(rows, SummaryOf(rows, Reappeared(Kept(previous), Projected(f)), f.complete)))
  }

  function Counted(s: Summary, presence: string): Summary {
    if presence == "active" then s.(active := s.active + 1)
    else if presence == "completed" then s.(completed := s.completed + 1)
    else if presence == "deleted" then s.(deleted := s.deleted + 1)
    else if presence == "unavailable" then s.(unavailable := s.unavailable + 1)
    else s.(unconfirmed := s.unconfirmed + 1)
  }

  /** Enters the previous tasks one by one, as `new Map` does. */
  method CollectTasks(previous: seq<Row>) returns (kept: seq<Row>)
    ensures kept == Kept(previous)
  {
    kept := [];
    for i := 0 to |previous|
      invariant kept == Kept(previous[..i])
    {
      assert previous[..i + 1][..i] == previous[..i];
      if IsTask(previous[i]) {
        kept := Entered(kept, previous[i]);
      }
    }
    assert previous[..|previous|] == previous;
  }

  /** Stamps the listed tasks and counts those that are back. */
  method StampListed(kept: seq<Row>, projected: seq<Row>, seenAt: string) returns (records: seq<Row>, reappeared: nat)
    ensures records == Seen(projected, seenAt) && reappeared == Reappeared(kept, projected)
  {
    hide PresenceOf, BackAgain;
    records, reappeared := [], 0;
    for i := 0 to |projected|
      invariant records == Seen(projected, seenAt)[..i]
      invariant reappeared == Reappeared(kept, projected[..i])
    {
      assert projected[..i + 1][..i] == projected[..i];
      if IsTask(projected[i]) && BackAgain(kept, projected[i].id) {
        reappeared := reappeared + 1;
      }
      records := records + [SeenRow(projected[i], seenAt)];
    }
    assert projected[..|projected|] == projected;
  }

  /** Carries the previous tasks the read lacks. */
  method CarryAbsent(kept: seq<Row>, f: Fetched, asked: set<string>, lookups: map<string, Lookup>, seenAt: string) returns (records: seq<Row>)
    ensures records == Carried(kept, f, asked, lookups, seenAt)
  {
    hide CarriedRow, TaskIds;
    var present := TaskIds(f.records);
    records := [];
    for i := 0 to |kept|
      invariant records == Carried(kept[..i], f, asked, lookups, seenAt)
    {
      assert kept[..i + 1][..i] == kept[..i];
      if kept[i].id !in present {
        records := records + [CarriedRow(kept[i], asked, lookups, seenAt)];
      }
    }
    assert kept[..|kept|] == kept;
  }

  /** Counts tasks by presence. */
  method Tally(records: seq<Row>, reappeared: nat, complete: bool) returns (summary: Summary)
    ensures summary == SummaryOf(records, reappeared, complete)
  {
    hide PresenceOf;
    summary := Summary(0, 0, 0, 0, 0, reappeared, complete);
    for i := 0 to |records|
      invariant summary == SummaryOf(records[..i], reappeared, complete)
    {
      assert records[..i + 1][..i] == records[..i];
      if IsTask(records[i]) {
        summary := Counted(summary, PresenceOf(records[i]));
      }
    }
    assert records[..|records|] == records;
  }

  /** Stamps what the read lists, carries what it lacks, and counts. */
  method ReconcileTasks(previous: seq<Row>, f: Fetched, lookups: map<string, Lookup>, seenAt: string) returns (result: Result<Outcome>)
    ensures result == Reconcile(previous, f, lookups, seenAt)
  {
    if !IsInstant(seenAt) {
      return Err(BAD_INSTANT);
    }
    if f.todoist && f.hasTask && f.collides {
      return Err(COLLISION);
    }
    var projected := Projected(f);
    var kept := CollectTasks(previous);
    var seen, reappeared := StampListed(kept, projected, seenAt);
    var carried := CarryAbsent(kept, f, Asked(previous, f), lookups, seenAt);
    var summary := Tally(seen + carried, reappeared, f.complete);
    return Ok(Outcome(seen + carried, summary));
  }

  // ----- What holds over every history of reads -----

  /** Presence is one of the five, and `done` says exactly that Todoist reported completion. */
  predicate Truthful(row: Row) {
    && PRESENCE in row.values && row.values[PRESENCE] == Text(PresenceOf(row))
    && DONE in row.values && row.values[DONE] == Flag(PresenceOf(row) == "completed")
  }

  ghost predicate Sound(rows: seq<Row>) {
    DistinctTasks(rows) && forall r :: r in rows && IsTask(r) ==> Truthful(r)
  }

  /** A read of Todoist that lists each task once. */
  ghost predicate GoodRead(f: Fetched) {
    f.todoist && f.hasTask && DistinctTasks(f.records)
  }

  lemma ProjectIsTruthful(row: Row)
    ensures ProjectRecord(row).id == row.id && ProjectRecord(row).resource == row.resource
    ensures IsTask(row) ==> Truthful(ProjectRecord(row)) && (PresenceOf(ProjectRecord(row)) == "completed" <==> Checked(row.values))
  {
  }

  lemma SeenIsTruthful(row: Row, seenAt: string)
    requires IsTask(row) && Truthful(row)
    ensures Truthful(SeenRow(row, seenAt)) && PresenceOf(SeenRow(row, seenAt)) == PresenceOf(row)
  {
  }

  lemma MarkIsTruthful(row: Row, presence: string)
    requires Truthful(row) && PresenceOf(row) != "completed" && IsPresence(presence) && presence != "completed"
    ensures Truthful(Mark(row, presence)) && PresenceOf(Mark(row, presence)) == presence
  {
  }

  lemma ConfirmedIsTruthful(row: Row, body: map<string, Json>, seenAt: string)
    requires IsTask(row)
    ensures Truthful(Confirmed(row, body, seenAt)) && Confirmed(row, body, seenAt).id == row.id && IsTask(Confirmed(row, body, seenAt))
    ensures PresenceOf(Confirmed(row, body, seenAt)) == "completed" <==> Checked(body)
  {
    ProjectIsTruthful(row.(values := body));
    hide ProjectRecord;
  }

  lemma CarriedIsTruthful(row: Row, asked: set<string>, lookups: map<string, Lookup>, seenAt: string)
    requires IsTask(row) && Truthful(row) && (row.id in asked ==> !Settled(PresenceOf(row)))
    ensures var r := CarriedRow(row, asked, lookups, seenAt); Truthful(r) && r.id == row.id && IsTask(r)
  {
    hide Confirmed, Mark, Truthful, PresenceOf;
    if row.id in asked {
      MarkedRows(row);
      ConfirmedIsTruthful(row, if row.id in lookups && lookups[row.id].Answer? then FieldsOf(Some(lookups[row.id].body)) else map[], seenAt);
    }
  }

  lemma MarkedRows(row: Row)
    requires Truthful(row) && !Settled(PresenceOf(row))
    ensures forall p :: p in ["unconfirmed", "unavailable", "deleted"] ==> Truthful(Mark(row, p)) && Mark(row, p).id == row.id && Mark(row, p).resource == row.resource
  {
    MarkIsTruthful(row, "unconfirmed");
    MarkIsTruthful(row, "unavailable");
    MarkIsTruthful(row, "deleted");
  }

  /** `r` is what becomes of the previous task `p`, which the read did not list. */
  ghost predicate ComesFrom(r: Row, p: Row, kept: seq<Row>, f: Fetched, asked: set<string>, lookups: map<string, Lookup>, seenAt: string) {
    p in kept && p.id !in TaskIds(f.records) && r == CarriedRow(p, asked, lookups, seenAt)
  }

  lemma CarriedKeepsId(row: Row, asked: set<string>, lookups: map<string, Lookup>, seenAt: string)
    ensures CarriedRow(row, asked, lookups, seenAt).id == row.id && CarriedRow(row, asked, lookups, seenAt).resource == row.resource
  {
    if row.id in asked && row.id in lookups && lookups[row.id].Answer? {
      ProjectIsTruthful(row.(values := FieldsOf(Some(lookups[row.id].body))));
    }
    hide ProjectRecord, PresenceOf;
  }

  lemma {:induction false} CarriedExactly(kept: seq<Row>, f: Fetched, asked: set<string>, lookups: map<string, Lookup>, seenAt: string)
    ensures forall r :: r in Carried(kept, f, asked, lookups, seenAt) ==> exists p :: ComesFrom(r, p, kept, f, asked, lookups, seenAt)
    ensures forall p :: p in kept && p.id !in TaskIds(f.records) ==> CarriedRow(p, asked, lookups, seenAt) in Carried(kept, f, asked, lookups, seenAt)
    decreases |kept|
  {
    hide CarriedRow, TaskIds;
    if kept != [] {
      var init, last := kept[..|kept| - 1], kept[|kept| - 1];
      CarriedExactly(init, f, asked, lookups, seenAt);
      assert forall p :: p in kept <==> p in init || p == last;
      forall r | r in Carried(kept, f, asked, lookups, seenAt)
        ensures exists p :: ComesFrom(r, p, kept, f, asked, lookups, seenAt)
      {
        if r in Carried(init, f, asked, lookups, seenAt) {
          var p :| ComesFrom(r, p, init, f, asked, lookups, seenAt);
          assert ComesFrom(r, p, kept, f, asked, lookups, seenAt);
        } else {
          assert ComesFrom(r, last, kept, f, asked, lookups, seenAt);
        }
      }
    }
  }

  lemma {:induction false} CarriedDistinct(kept: seq<Row>, f: Fetched, asked: set<string>, lookups: map<string, Lookup>, seenAt: string)
    requires DistinctTasks(kept) && forall r :: r in kept ==> IsTask(r)
    ensures DistinctTasks(Carried(kept, f, asked, lookups, seenAt))
    decreases |kept|
  {
    hide CarriedRow, TaskIds;
    if kept != [] {
      var init, last := kept[..|kept| - 1], kept[|kept| - 1];
      CarriedDistinct(init, f, asked, lookups, seenAt);
      CarriedExactly(init, f, asked, lookups, seenAt);
      CarriedKeepsId(last, asked, lookups, seenAt);
      forall r | r in Carried(init, f, asked, lookups, seenAt)
        ensures r.id != last.id
      {
        var p :| ComesFrom(r, p, init, f, asked, lookups, seenAt);
        CarriedKeepsId(p, asked, lookups, seenAt);
        LastDiffers(kept, p);
      }
    }
  }

  lemma LastDiffers(rows: seq<Row>, p: Row)
    requires DistinctTasks(rows) && rows != [] && p in rows[..|rows| - 1] && IsTask(p) && IsTask(rows[|rows| - 1])
    ensures p.id != rows[|rows| - 1].id
  {
  }

  /** A listed task, as stamped. */
  ghost predicate ListedAs(r: Row, original: Row, f: Fetched, seenAt: string) {
    original in f.records && r == SeenRow(ProjectRecord(original), seenAt)
  }

  lemma SeenExactly(f: Fetched, seenAt: string)
    requires GoodRead(f)
    ensures var seen := Seen(Projected(f), seenAt);
      && (forall r :: r in seen ==> exists o :: ListedAs(r, o, f, seenAt))
      && (forall o :: o in f.records ==> SeenRow(ProjectRecord(o), seenAt) in seen)
      && DistinctTasks(seen)
  {
    hide ProjectRecord;
    var seen := Seen(Projected(f), seenAt);
    assert forall i :: 0 <= i < |seen| ==> seen[i] == SeenRow(ProjectRecord(f.records[i]), seenAt);
    forall i | 0 <= i < |seen|
      ensures seen[i].id == f.records[i].id && seen[i].resource == f.records[i].resource
    {
      ProjectIsTruthful(f.records[i]);
    }
    forall r | r in seen
      ensures exists o :: ListedAs(r, o, f, seenAt)
    {
      var i :| 0 <= i < |seen| && seen[i] == r;
      assert ListedAs(r, f.records[i], f, seenAt);
    }
    forall o | o in f.records
      ensures SeenRow(ProjectRecord(o), seenAt) in seen
    {
      var i :| 0 <= i < |seen| && f.records[i] == o;
      assert seen[i] == SeenRow(ProjectRecord(o), seenAt);
    }
  }

  // ----- The previous tasks by id -----

  lemma {:induction false} EnteredOnce(kept: seq<Row>, row: Row)
    requires DistinctTasks(kept) && IsTask(row) && forall r :: r in kept ==> IsTask(r)
    ensures DistinctTasks(Entered(kept, row))
    ensures forall x :: x in Entered(kept, row) <==> (x in kept && x.id != row.id) || x == row
    decreases |kept|
  {
    if kept != [] {
      assert kept == [kept[0]] + kept[1..];
      assert forall r :: r in kept[1..] ==> r.id != kept[0].id;
      if kept[0].id != row.id {
        EnteredOnce(kept[1..], row);
        var rest := Entered(kept[1..], row);
        assert forall r :: r in rest ==> r.id != kept[0].id;
      }
    }
  }

  /** No task after this one has its id. */
  ghost predicate LastAt(previous: seq<Row>, i: nat)
    requires i < |previous|
  {
    IsTask(previous[i]) && forall j :: i < j < |previous| && IsTask(previous[j]) ==> previous[j].id != previous[i].id
  }

  /** The last row of its id among the previous tasks. */
  ghost predicate LastOf(r: Row, previous: seq<Row>) {
    exists i :: 0 <= i < |previous| && LastAt(previous, i) && previous[i] == r
  }

  /** Whatever the previous rows, exactly the last row of each task id is kept. */
  lemma {:induction false} KeptExactly(previous: seq<Row>)
    ensures DistinctTasks(Kept(previous))
    ensures forall r :: r in Kept(previous) <==> LastOf(r, previous)
    decreases |previous|
  {
    if previous != [] {
      var init, last := previous[..|previous| - 1], previous[|previous| - 1];
      KeptExactly(init);
      if IsTask(last) {
        EnteredOnce(Kept(init), last);
      }
      hide Kept, Entered, LastOf;
      forall r ensures LastOf(r, previous) <==> (LastOf(r, init) && !(IsTask(last) && last.id == r.id)) || (IsTask(last) && r == last) {
        LastOfMore(r, previous);
      }
    }
  }

  lemma LastOfMore(r: Row, previous: seq<Row>)
    requires previous != []
    ensures var init, last := previous[..|previous| - 1], previous[|previous| - 1];
      LastOf(r, previous) <==> (LastOf(r, init) && !(IsTask(last) && last.id == r.id)) || (IsTask(last) && r == last)
  {
    var n := |previous| - 1;
    var init, last := previous[..n], previous[n];
    forall i | 0 <= i < n ensures LastAt(previous, i) <==> LastAt(init, i) && !(IsTask(last) && last.id == init[i].id) {
      LastAtMore(previous, i);
    }
    assert LastAt(previous, n) <==> IsTask(last);
    hide LastAt, IsTask;
    if LastOf(r, init) && !(IsTask(last) && last.id == r.id) {
      var i :| 0 <= i < n && LastAt(init, i) && init[i] == r;
      assert LastAt(previous, i) && previous[i] == r;
    }
    if LastOf(r, previous) {
      var i :| 0 <= i <= n && LastAt(previous, i) && previous[i] == r;
      if i < n {
        assert LastAt(init, i) && init[i] == r;
      }
    }
  }

  lemma LastAtMore(previous: seq<Row>, i: nat)
    requires i + 1 < |previous|
    ensures var init, last := previous[..|previous| - 1], previous[|previous| - 1];
      LastAt(previous, i) <==> LastAt(init, i) && !(IsTask(last) && last.id == init[i].id)
  {
    hide IsTask;
    var init := previous[..|previous| - 1];
    if LastAt(previous, i) {
      assert forall j :: i < j < |init| ==> init[j] == previous[j];
    }
  }

  /** Where no id repeats, every previous task is kept as it is, and it is asked for exactly when it is absent. */
  lemma KeptAsIs(previous: seq<Row>, f: Fetched, p: Row)
    requires DistinctTasks(previous) && p in previous && IsTask(p)
    ensures p in Kept(previous) && (p.id in Asked(previous, f) <==> Absent(p, f))
  {
    KeptExactly(previous);
    hide Kept, PresenceOf, TaskIds;
    var i :| 0 <= i < |previous| && previous[i] == p;
    assert LastAt(previous, i);
    forall r | r in previous && Absent(r, f) && r.id == p.id ensures r == p {
      var j :| 0 <= j < |previous| && previous[j] == r;
      assert !(i < j) && !(j < i);
    }
  }

  lemma {:induction false} KeptIds(previous: seq<Row>)
    ensures TaskIds(Kept(previous)) == TaskIds(previous)
    decreases |previous|
  {
    if previous != [] {
      var init, last := previous[..|previous| - 1], previous[|previous| - 1];
      assert previous == init + [last];
      KeptIds(init);
      KeptExactly(init);
      if IsTask(last) {
        EnteredOnce(Kept(init), last);
      }
      hide Entered;
      assert forall id :: id in TaskIds(previous) <==> id in TaskIds(init) || (IsTask(last) && id == last.id);
      assert forall id :: id in TaskIds(Kept(previous)) <==> id in TaskIds(Kept(init)) || (IsTask(last) && id == last.id);
    }
  }

  /** Where every row after a read comes from. */
  lemma RowOrigin(previous: seq<Row>, f: Fetched, lookups: map<string, Lookup>, seenAt: string, r: Row)
    requires GoodRead(f) && r in Rows(previous, f, lookups, seenAt)
    ensures (exists o :: ListedAs(r, o, f, seenAt)) || exists p :: ComesFrom(r, p, Kept(previous), f, Asked(previous, f), lookups, seenAt)
  {
    hide Seen, Carried, Projected, CarriedRow, SeenRow, ProjectRecord, Kept, Asked;
    var kept, asked := Kept(previous), Asked(previous, f);
    SeenExactly(f, seenAt);
    CarriedExactly(kept, f, asked, lookups, seenAt);
    if r !in Seen(Projected(f), seenAt) {
      assert r in Carried(kept, f, asked, lookups, seenAt);
      var p :| ComesFrom(r, p, kept, f, asked, lookups, seenAt);
      assert ComesFrom(r, p, Kept(previous), f, Asked(previous, f), lookups, seenAt);
    }
  }

  lemma ListedId(r: Row, o: Row, f: Fetched, seenAt: string)
    requires ListedAs(r, o, f, seenAt)
    ensures r.id == o.id && r.resource == o.resource
    ensures IsTask(r) ==> Truthful(r) && r.id in TaskIds(f.records) && r.values[LAST_SEEN] == Text(seenAt) && (PresenceOf(r) == "completed" <==> Checked(o.values))
  {
    ProjectIsTruthful(o);
    if IsTask(o) {
      SeenIsTruthful(ProjectRecord(o), seenAt);
    }
    hide ProjectRecord, Truthful, PresenceOf;
  }

  lemma JoinDistinct(a: seq<Row>, b: seq<Row>)
    requires DistinctTasks(a) && DistinctTasks(b)
    requires forall x, y :: x in a && y in b && IsTask(x) && IsTask(y) ==> x.id != y.id
    ensures DistinctTasks(a + b)
  {
    var c := a + b;
    forall i, j | 0 <= i < j < |c| && IsTask(c[i]) && IsTask(c[j])
      ensures c[i].id != c[j].id
    {
      if i < |a| <= j {
        assert c[i] in a && c[j] in b;
      } else if j < |a| {
        assert a[i] == c[i] && a[j] == c[j];
      } else {
        assert b[i - |a|] == c[i] && b[j - |a|] == c[j];
      }
    }
  }

  /** Whatever was stored before, after a read every task is there once. */
  lemma ReadTellsApart(previous: seq<Row>, f: Fetched, lookups: map<string, Lookup>, seenAt: string)
    requires GoodRead(f)
    ensures DistinctTasks(Rows(previous, f, lookups, seenAt))
  {
    hide CarriedRow, SeenRow, ProjectRecord, Seen, Projected, Carried, Kept, Asked;
    var kept, asked := Kept(previous), Asked(previous, f);
    KeptExactly(previous);
    SeenExactly(f, seenAt);
    CarriedExactly(kept, f, asked, lookups, seenAt);
    CarriedDistinct(kept, f, asked, lookups, seenAt);
    var seen, carried := Seen(Projected(f), seenAt), Carried(kept, f, asked, lookups, seenAt);
    forall x, y | x in seen && y in carried && IsTask(x) && IsTask(y)
      ensures x.id != y.id
    {
      var o :| ListedAs(x, o, f, seenAt);
      ListedId(x, o, f, seenAt);
      var p :| ComesFrom(y, p, kept, f, asked, lookups, seenAt);
      CarriedKeepsId(p, asked, lookups, seenAt);
    }
    JoinDistinct(seen, carried);
  }

  /** A read keeps every task told apart, and `done` true to presence. */
  lemma ReadKeepsSound(previous: seq<Row>, f: Fetched, lookups: map<string, Lookup>, seenAt: string)
    requires Sound(previous) && GoodRead(f)
    ensures Sound(Rows(previous, f, lookups, seenAt))
  {
    hide Truthful, CarriedRow, SeenRow, ProjectRecord, Rows, Kept, Asked, DistinctTasks, GoodRead, PresenceOf;
    ReadTellsApart(previous, f, lookups, seenAt);
    forall r | r in Rows(previous, f, lookups, seenAt) && IsTask(r)
      ensures Truthful(r)
    {
      RowOrigin(previous, f, lookups, seenAt, r);
      if o :| ListedAs(r, o, f, seenAt) {
        ListedId(r, o, f, seenAt);
      } else {
        var p :| ComesFrom(r, p, Kept(previous), f, Asked(previous, f), lookups, seenAt);
        KeptFromPrevious(previous, p);
        KeptAsIs(previous, f, p);
        CarriedIsTruthful(p, Asked(previous, f), lookups, seenAt);
      }
    }
  }

  lemma KeptFromPrevious(previous: seq<Row>, p: Row)
    ensures p in Kept(previous) ==> p in previous && IsTask(p)
  {
  }

  /** No task is lost and none is invented: the tasks after a read are those before it
      and those it lists. */
  lemma ReadKeepsTasks(previous: seq<Row>, f: Fetched, lookups: map<string, Lookup>, seenAt: string)
    requires GoodRead(f)
    ensures TaskIds(Rows(previous, f, lookups, seenAt)) == TaskIds(previous) + TaskIds(f.records)
  {
    hide CarriedRow, SeenRow, ProjectRecord, Seen, Projected, Carried, Kept, Asked;
    var kept, asked := Kept(previous), Asked(previous, f);
    KeptIds(previous);
    var rows := Rows(previous, f, lookups, seenAt);
    SeenExactly(f, seenAt);
    CarriedExactly(kept, f, asked, lookups, seenAt);
    forall id | id in TaskIds(rows)
      ensures id in TaskIds(previous) + TaskIds(f.records)
    {
      var r :| r in rows && IsTask(r) && r.id == id;
      RowOrigin(previous, f, lookups, seenAt, r);
      if o :| ListedAs(r, o, f, seenAt) {
        ListedId(r, o, f, seenAt);
      } else {
        var p :| ComesFrom(r, p, kept, f, asked, lookups, seenAt);
        KeptFromPrevious(previous, p);
        CarriedKeepsId(p, asked, lookups, seenAt);
      }
    }
    forall id | id in TaskIds(f.records)
      ensures id in TaskIds(rows)
    {
      var o :| o in f.records && IsTask(o) && o.id == id;
      var r := SeenRow(ProjectRecord(o), seenAt);
      assert ListedAs(r, o, f, seenAt);
      ListedId(r, o, f, seenAt);
      assert r in rows;
    }
    forall id | id in TaskIds(previous) && id !in TaskIds(f.records)
      ensures id in TaskIds(rows)
    {
      var p :| p in kept && IsTask(p) && p.id == id;
      CarriedKeepsId(p, asked, lookups, seenAt);
      assert CarriedRow(p, asked, lookups, seenAt) in rows;
    }
  }

  /** What a read does to a task it does not list: after a partial read, or once
      settled, nothing; otherwise `last-seen` moves only when Todoist returned the task
      by id, and completion is only ever what Todoist itself said. */
  lemma AbsentTask(previous: seq<Row>, f: Fetched, lookups: map<string, Lookup>, seenAt: string, p: Row)
    requires Sound(previous) && GoodRead(f) && p in previous && IsTask(p) && p.id !in TaskIds(f.records)
    ensures var r := CarriedRow(p, Asked(previous, f), lookups, seenAt);
      && r in Rows(previous, f, lookups, seenAt) && r.id == p.id
      && (!f.complete || Settled(PresenceOf(p)) ==> r == p)
      && (f.complete && !Settled(PresenceOf(p)) ==>
            && (if Returned(p, lookups) then ValueOf(r.values, LAST_SEEN) == Some(Text(seenAt)) else ValueOf(r.values, LAST_SEEN) == ValueOf(p.values, LAST_SEEN))
            && (PresenceOf(r) == "completed" <==> Returned(p, lookups) && Checked(FieldsOf(Some(lookups[p.id].body)))))
  {
    var kept, asked := Kept(previous), Asked(previous, f);
    hide CarriedRow, Carried, PresenceOf, Kept, Asked;
    KeptAsIs(previous, f, p);
    CarriedExactly(kept, f, asked, lookups, seenAt);
    CarriedKeepsId(p, asked, lookups, seenAt);
    AbsentPresence(p, f, asked, lookups, seenAt);
  }

  lemma AbsentPresence(p: Row, f: Fetched, asked: set<string>, lookups: map<string, Lookup>, seenAt: string)
    requires IsTask(p) && Truthful(p) && p.id !in TaskIds(f.records) && f.todoist && (p.id in asked <==> Absent(p, f))
    ensures var r := CarriedRow(p, asked, lookups, seenAt);
      && (!f.complete || Settled(PresenceOf(p)) ==> r == p)
      && (f.complete && !Settled(PresenceOf(p)) ==>
            && (if Returned(p, lookups) then ValueOf(r.values, LAST_SEEN) == Some(Text(seenAt)) else ValueOf(r.values, LAST_SEEN) == ValueOf(p.values, LAST_SEEN))
            && (PresenceOf(r) == "completed" <==> Returned(p, lookups) && Checked(FieldsOf(Some(lookups[p.id].body)))))
  {
    hide Confirmed, ProjectRecord;
    if f.complete && !Settled(PresenceOf(p)) {
      MarkIsTruthful(p, "unconfirmed");
      MarkIsTruthful(p, "unavailable");
      MarkIsTruthful(p, "deleted");
      if Returned(p, lookups) {
        var body := FieldsOf(Some(lookups[p.id].body));
        ConfirmedIsTruthful(p, body, seenAt);
        ConfirmedIsSeen(p, body, seenAt);
      }
    }
  }

  lemma ConfirmedIsSeen(row: Row, body: map<string, Json>, seenAt: string)
    ensures ValueOf(Confirmed(row, body, seenAt).values, LAST_SEEN) == Some(Text(seenAt))
  {
    hide ProjectRecord;
  }

  function TaskCount(rows: seq<Row>): nat {
    if rows == [] then 0 else TaskCount(rows[..|rows| - 1]) + if IsTask(rows[|rows| - 1]) then 1 else 0
  }

  /** Every task is counted under exactly one presence. */
  lemma {:induction false} CountsSum(rows: seq<Row>)
    ensures CountOf(rows, "active") + CountOf(rows, "completed") + CountOf(rows, "deleted") + CountOf(rows, "unavailable") + CountOf(rows, "unconfirmed") == TaskCount(rows)
    decreases |rows|
  {
    if rows != [] {
      CountsSum(rows[..|rows| - 1]);
    }
  }

  /** One read of a history: what was read, the answers by id, and when. */
  datatype Read = Read(fetched: Fetched, lookups: map<string, Lookup>, seenAt: string)

  function AfterReads(polls: seq<Read>): seq<Row> {
    if polls == [] then []
    else
      var last := polls[|polls| - 1];
      Rows(AfterReads(polls[..|polls| - 1]), last.fetched, last.lookups, last.seenAt)
  }

  function Listed(polls: seq<Read>): set<string> {
    if polls == [] then {} else Listed(polls[..|polls| - 1]) + TaskIds(polls[|polls| - 1].fetched.records)
  }

  /** Over every history of complete and partial reads from nothing: the rows hold each
      task ever listed, once, with `done` true exactly for the completed ones. */
  lemma {:induction false} HistoryIsSound(polls: seq<Read>)
    requires forall i :: 0 <= i < |polls| ==> GoodRead(polls[i].fetched)
    ensures Sound(AfterReads(polls)) && TaskIds(AfterReads(polls)) == Listed(polls)
    decreases |polls|
  {
    hide Rows, Sound, GoodRead, TaskIds;
    if polls != [] {
      HistoryIsSound(polls[..|polls| - 1]);
      var last := polls[|polls| - 1];
      var before := AfterReads(polls[..|polls| - 1]);
      ReadKeepsSound(before, last.fetched, last.lookups, last.seenAt);
      ReadKeepsTasks(before, last.fetched, last.lookups, last.seenAt);
    } else {
      EmptyIsSound();
    }
  }

  lemma EmptyIsSound()
    ensures Sound([]) && TaskIds([]) == {}
  {
  }

  // ----- What a read shows, column by column -----

  /** A text that names a day, from Todoist's `due.date`, or else its `due.datetime`. */
  ghost predicate NamesDay(values: map<string, Json>, text: string) {
    && "due" in values && values["due"].Object? && StartsWithDay(text)
    && var due := values["due"].fields;
       if "date" in due && due["date"].Text? then due["date"] == Text(text)
       else "datetime" in due && due["datetime"] == Text(text)
  }

  /** Todoist's priorities, lowest first. */
  const LABELS: seq<string> := ["Normal", "Medium", "High", "Urgent"]

  /** The name: Todoist's own text without the space around it, unless that is empty. */
  ghost predicate Named(name: string, values: map<string, Json>, before: string) {
    if "content" in values && values["content"].Text? && !AllSpace(values["content"].text)
    then name != "" && IsTrimmed(name, values["content"].text)
    else name == before
  }

  /** The row shows a task as Todoist returned it with `values`. */
  ghost predicate Shows(r: Row, values: map<string, Json>, before: string, seenAt: string) {
    var checked := "checked" in values && values["checked"] == Flag(true);
    && ValueOf(r.values, "done") == Some(Flag(checked))
    && ValueOf(r.values, "presence") == Some(Text(if checked then "completed" else "active"))
    && ValueOf(r.values, "last-seen") == Some(Text(seenAt))
    && (forall text :: NamesDay(values, text) ==> ValueOf(r.values, "due-day") == Some(Text(text[..10])))
    && ((forall text :: !NamesDay(values, text)) ==> ValueOf(r.values, "due-day") == ValueOf(values, "due-day"))
    && (forall n :: 1 <= n <= 4 && ValueOf(values, "priority") == Some(Number(n)) ==> ValueOf(r.values, "priority-label") == Some(Text(LABELS[n - 1])))
    && ((forall n :: 1 <= n <= 4 ==> ValueOf(values, "priority") != Some(Number(n))) ==> ValueOf(r.values, "priority-label") == ValueOf(values, "priority-label"))
    && (forall k :: k !in {"done", "presence", "last-seen", "due-day", "priority-label"} ==> ValueOf(r.values, k) == ValueOf(values, k))
    && Named(r.name, values, before)
  }

  lemma TrimEmptyIff(s: string)
    ensures Trim(s) == "" <==> AllSpace(s)
  {
    TrimIsTrimmed(s);
    hide Trim, IsSpace;
    var lead, trail :| AllSpace(lead) && AllSpace(trail) && s == lead + Trim(s) + trail;
    if Trim(s) != "" {
      assert s[|lead|] == Trim(s)[0];
    }
  }

  lemma NameShows(row: Row)
    ensures Named(NameOf(row), row.values, row.name)
  {
    match ValueOf(row.values, "content") {
      case Some(Text(s)) =>
        TrimEmptyIff(s);
        TrimIsTrimmed(s);
        hide Trim, AllSpace, IsTrimmed;
      case _ =>
    }
  }

  lemma DueShows(values: map<string, Json>, text: string)
    ensures NamesDay(values, text) <==> DueOf(values) == Some(Text(text)) && StartsWithDay(text)
  {
    hide StartsWithDay;
  }

  lemma LabelShows(values: map<string, Json>)
    ensures forall n :: 1 <= n <= 4 && ValueOf(values, "priority") == Some(Number(n)) ==> LabelOf(values) == Some(LABELS[n - 1])
    ensures (forall n :: 1 <= n <= 4 ==> ValueOf(values, "priority") != Some(Number(n))) ==> LabelOf(values) == None
  {
    match ValueOf(values, "priority") {
      case Some(Number(n)) =>
        assert 1 <= n <= 4 ==> ValueOf(values, "priority") == Some(Number(n));
      case _ =>
    }
  }

  lemma ProjectedColumns(row: Row, k: string)
    requires IsTask(row)
    ensures ProjectRecord(row).name == NameOf(row)
    ensures ValueOf(ProjectRecord(row).values, k) ==
      if k == "done" then Some(Flag(Checked(row.values)))
      else if k == "presence" then Some(Text(if Checked(row.values) then "completed" else "active"))
      else if k == "due-day" && DueOf(row.values).Some? && DueOf(row.values).value.Text? && StartsWithDay(DueOf(row.values).value.text)
      then Some(Text(DueOf(row.values).value.text[..10]))
      else if k == "priority-label" && LabelOf(row.values).Some? then Some(Text(LabelOf(row.values).value))
      else ValueOf(row.values, k)
  {
    hide NameOf, DueOf, LabelOf, StartsWithDay, Checked;
  }

  lemma SeenColumns(row: Row, seenAt: string, k: string)
    requires IsTask(row)
    ensures SeenRow(row, seenAt).name == row.name && SeenRow(row, seenAt).id == row.id
    ensures ValueOf(SeenRow(row, seenAt).values, k) == if k == "last-seen" then Some(Text(seenAt)) else ValueOf(row.values, k)
  {
  }

  lemma ProjectedShows(row: Row, seenAt: string)
    requires IsTask(row)
    ensures Shows(SeenRow(ProjectRecord(row), seenAt), row.values, row.name, seenAt)
  {
    var r := SeenRow(ProjectRecord(row), seenAt);
    assert Checked(row.values) <==> "checked" in row.values && row.values["checked"] == Flag(true);
    ProjectIsTruthful(row);
    NameShows(row);
    LabelShows(row.values);
    hide NamesDay, Named, NameOf, DueOf, LabelOf, StartsWithDay, ProjectRecord, SeenRow, Checked, ValueOf;
    ProjectedColumns(row, "");
    SeenColumns(ProjectRecord(row), seenAt, "");
    forall k ensures ValueOf(r.values, k) == if k == "last-seen" then Some(Text(seenAt)) else ValueOf(ProjectRecord(row).values, k) {
      SeenColumns(ProjectRecord(row), seenAt, k);
    }
    ProjectedColumns(row, "done");
    ProjectedColumns(row, "presence");
    ProjectedColumns(row, "due-day");
    ProjectedColumns(row, "priority-label");
    forall text ensures NamesDay(row.values, text) <==> DueOf(row.values) == Some(Text(text)) && StartsWithDay(text) {
      DueShows(row.values, text);
    }
    forall k | k !in {"done", "presence", "last-seen", "due-day", "priority-label"} ensures ValueOf(r.values, k) == ValueOf(row.values, k) {
      ProjectedColumns(row, k);
    }
  }

  /** Only the presence of the row changed. */
  ghost predicate OnlyMarked(r: Row, p: Row, presence: string) {
    && r.id == p.id && r.resource == p.resource && r.name == p.name
    && forall k :: ValueOf(r.values, k) == if k == "presence" then Some(Text(presence)) else ValueOf(p.values, k)
  }

  /** What becomes of a task the read did not list. A partial read and a settled
      presence leave it; otherwise Todoist's answer by id decides. */
  ghost predicate Follows(r: Row, p: Row, f: Fetched, lookups: map<string, Lookup>, seenAt: string) {
    if !f.complete || PresenceOf(p) == "completed" || PresenceOf(p) == "deleted" || PresenceOf(p) == "unavailable" then r == p
    else if p.id !in lookups || lookups[p.id].Failure? then OnlyMarked(r, p, "unconfirmed")
    else if lookups[p.id].status == 404 then OnlyMarked(r, p, "unavailable")
    else
      var body := lookups[p.id].body;
      if lookups[p.id].status != 200 || !body.Object? || "id" !in body.fields || body.fields["id"] != Text(p.id) then OnlyMarked(r, p, "unconfirmed")
      else if "is_deleted" in body.fields && body.fields["is_deleted"] == Flag(true) then OnlyMarked(r, p, "deleted")
      else r.id == p.id && IsTask(r) && Shows(r, body.fields, p.name, seenAt)
  }

  lemma MarksOnly(p: Row, presence: string)
    ensures OnlyMarked(Mark(p, presence), p, presence)
  {
  }

  lemma CarriedFollows(p: Row, f: Fetched, asked: set<string>, lookups: map<string, Lookup>, seenAt: string)
    requires IsTask(p) && f.todoist && p.id !in TaskIds(f.records) && (p.id in asked <==> Absent(p, f))
    ensures Follows(CarriedRow(p, asked, lookups, seenAt), p, f, lookups, seenAt)
  {
    MarksOnly(p, "unconfirmed");
    MarksOnly(p, "unavailable");
    MarksOnly(p, "deleted");
    if p.id in lookups && lookups[p.id].Answer? {
      var body := FieldsOf(Some(lookups[p.id].body));
      ConfirmedShows(p, body, seenAt);
    }
    hide OnlyMarked, Mark, Shows, Confirmed, PresenceOf, TaskIds;
  }

  lemma ConfirmedShows(p: Row, body: map<string, Json>, seenAt: string)
    requires IsTask(p)
    ensures Shows(Confirmed(p, body, seenAt), body, p.name, seenAt) && Confirmed(p, body, seenAt).id == p.id && IsTask(Confirmed(p, body, seenAt))
  {
    var row := p.(values := body);
    ProjectedShows(row, seenAt);
    ProjectIsTruthful(row);
    hide Shows, ProjectRecord;
  }

  /** Every task row after a read: a listed task shows what Todoist listed, and any
      other what its presence and Todoist's answer leave of it. */
  lemma RowsAfterRead(previous: seq<Row>, f: Fetched, lookups: map<string, Lookup>, seenAt: string, r: Row)
    requires Sound(previous) && GoodRead(f) && r in Rows(previous, f, lookups, seenAt) && IsTask(r)
    ensures if r.id in TaskIds(f.records)
      then exists o :: o in f.records && IsTask(o) && o.id == r.id && Shows(r, o.values, o.name, seenAt)
      else exists p :: p in previous && IsTask(p) && p.id == r.id && Follows(r, p, f, lookups, seenAt)
  {
    hide Truthful, CarriedRow, SeenRow, ProjectRecord, Rows, Kept, Asked, DistinctTasks, PresenceOf, Shows, Follows, TaskIds;
    RowOrigin(previous, f, lookups, seenAt, r);
    if o :| ListedAs(r, o, f, seenAt) {
      ListedId(r, o, f, seenAt);
      ProjectedShows(o, seenAt);
    } else {
      var p :| ComesFrom(r, p, Kept(previous), f, Asked(previous, f), lookups, seenAt);
      KeptFromPrevious(previous, p);
      KeptAsIs(previous, f, p);
      CarriedKeepsId(p, Asked(previous, f), lookups, seenAt);
      CarriedFollows(p, f, Asked(previous, f), lookups, seenAt);
    }
  }

  // ----- Tasks that came back -----

  /** The listed tasks that the previous rows held as anything but active. */
  ghost function CameBack(previous: seq<Row>, rows: seq<Row>): set<string> {
    set r | r in rows && IsTask(r) && WasGone(previous, r.id) :: r.id
  }

  ghost predicate WasGone(previous: seq<Row>, id: string) {
    exists p :: LastOf(p, previous) && p.id == id && PresenceOf(p) != "active"
  }

  lemma CameBackMore(previous: seq<Row>, rows: seq<Row>)
    requires DistinctTasks(rows) && rows != []
    ensures var init, last := rows[..|rows| - 1], rows[|rows| - 1];
      if IsTask(last) && WasGone(previous, last.id)
      then CameBack(previous, rows) == CameBack(previous, init) + {last.id} && last.id !in CameBack(previous, init)
      else CameBack(previous, rows) == CameBack(previous, init)
  {
    hide WasGone;
    var init, last := rows[..|rows| - 1], rows[|rows| - 1];
    assert rows == init + [last];
    if IsTask(last) {
      forall r | r in init && IsTask(r) ensures r.id != last.id {
        LastDiffers(rows, r);
      }
    }
  }

  /** The summary counts each task that came back once. */
  lemma {:induction false} ReappearedCounts(previous: seq<Row>, rows: seq<Row>)
    requires DistinctTasks(rows)
    ensures Reappeared(Kept(previous), rows) == |CameBack(previous, rows)|
    decreases |rows|
  {
    if rows != [] {
      var init, last := rows[..|rows| - 1], rows[|rows| - 1];
      ReappearedCounts(previous, init);
      CameBackMore(previous, rows);
      GoneIsBack(previous, last.id);
      hide WasGone, BackAgain, CameBack, Kept, DistinctTasks;
    }
  }

  lemma GoneIsBack(previous: seq<Row>, id: string)
    ensures BackAgain(Kept(previous), id) <==> WasGone(previous, id)
  {
    KeptExactly(previous);
    hide Kept, PresenceOf, LastOf;
  }

  // ----- Instants -----

  /** The text begins like the pattern, in which `d` is any digit. */
  predicate Follow(pattern: string, s: string) {
    |pattern| <= |s| && forall i :: 0 <= i < |pattern| ==> if pattern[i] == 'd' then IsDigit(s[i]) else s[i] == pattern[i]
  }

  lemma DayFollows(s: string)
    ensures StartsWithDay(s) <==> Follow("dddd-dd-dd", s)
  {
    hide IsDigit;
    var at := [0, 1, 2, 3, 5, 6, 8, 9];
    if |s| >= 10 {
      assert at[0] == 0 && at[1] == 1 && at[2] == 2 && at[3] == 3 && at[4] == 5 && at[5] == 6 && at[6] == 8 && at[7] == 9;
      assert (forall i :: i in at ==> IsDigit(s[i]))
        <==> IsDigit(s[0]) && IsDigit(s[1]) && IsDigit(s[2]) && IsDigit(s[3]) && IsDigit(s[5]) && IsDigit(s[6]) && IsDigit(s[8]) && IsDigit(s[9]);
    }
  }

  lemma MinuteFollows(s: string)
    requires |s| >= 16
    ensures s[10] == 'T' && s[13] == ':' && (forall i :: i in [11, 12, 14, 15] ==> IsDigit(s[i])) <==> Follow("Tdd:dd", s[10..])
  {
    hide IsDigit;
    var at := [11, 12, 14, 15];
    assert at[0] == 11 && at[1] == 12 && at[2] == 14 && at[3] == 15;
    assert (forall i :: i in at ==> IsDigit(s[i])) <==> IsDigit(s[11]) && IsDigit(s[12]) && IsDigit(s[14]) && IsDigit(s[15]);
    var rest := s[10..];
    assert rest[0] == s[10] && rest[1] == s[11] && rest[2] == s[12] && rest[3] == s[13] && rest[4] == s[14] && rest[5] == s[15];
  }

  /** A read needs an instant to the minute, and an ontology without the added columns. */
  lemma ReadsExactly(previous: seq<Row>, f: Fetched, lookups: map<string, Lookup>, seenAt: string)
    ensures Reconcile(previous, f, lookups, seenAt).Ok? <==>
      && |seenAt| >= 16 && Follow("dddd-dd-dd", seenAt) && Follow("Tdd:dd", seenAt[10..])
      && !(f.todoist && f.hasTask && f.collides)
  {
    DayFollows(seenAt);
    if |seenAt| >= 16 {
      MinuteFollows(seenAt);
    }
    hide StartsWithDay, Follow, Rows, Reappeared, SummaryOf;
  }
}
