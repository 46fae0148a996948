/** Importing a batch of source records into Atomic rows against saved baselines. */
module ImportRecords {
  import opened Wrappers

  type Subject = string
  type Property = string

  datatype Value = Text(text: string) | Number(number: int) | Flag(on: bool) | Null | List(items: seq<Value>) | Object(fields: map<string, Value>)

  /** `previous` is kept beside `values` for review; nothing reads it back. */
  datatype Baseline = NoBaseline | InvalidBaseline | Saved(values: map<Property, Value>, previous: map<Property, Value>)

  /** A reviewed decision that several rows are one source record. */
  datatype Resolution = NoResolution | Malformed | Reviewed(id: string, canonical: string, members: map<string, Row>, supersedes: seq<string>)

  /** An Atomic row: its import metadata, and every other property. `isA` is
      `None` when the classes are not an array. */
  datatype Row = Row(
    parent: Option<string>,
    isA: Option<seq<string>>,
    localId: Option<string>,
    baseline: Baseline,
    resolution: Resolution,
    values: map<Property, Value>)

  type Store = map<Subject, Row>

  datatype Legacy = NoLegacy | Legacy(property: Property, value: Value)

  datatype Record = Record(
    localId: string,
    sourceId: string,
    parent: string,
    isA: seq<string>,
    append: bool,
    legacy: Legacy,
    values: map<Property, Value>)

  const METADATA: set<Property> := {
    "https://atomicdata.dev/properties/parent",
    "https://atomicdata.dev/properties/isA",
    "https://atomicdata.dev/properties/localId",
    "https://atomicdata.dev/properties/importBaseline",
    "https://atomicdata.dev/properties/importResolution",
    "https://atomicdata.dev/properties/importReferenceReview"}

  /** Properties a review snapshot leaves out besides the resolution itself. */
  const BOOKKEEPING: set<Property> := {
    "@id",
    "https://atomicdata.dev/properties/subject",
    "https://atomicdata.dev/properties/loroUpdate",
    "https://atomicdata.dev/properties/lastCommit",
    "https://atomicdata.dev/properties/createdAt",
    "https://atomicdata.dev/properties/updatedAt",
    "https://atomicdata.dev/properties/createdBy",
    "https://atomicdata.dev/properties/modifiedAt",
    "https://atomicdata.dev/properties/modifiedBy",
    "https://atomicdata.dev/properties/genesis"}

  // ----- Identifiers -----

  const LOCAL := "local:"

  predicate IsLocal(s: string) {
    LOCAL <= s
  }

  function LocalPart(s: string): string
    requires IsLocal(s)
  {
    s[|LOCAL|..]
  }

  function UpToFragment(s: string): string {
    if s == "" || s[0] == '?' || s[0] == '#' then "" else [s[0]] + UpToFragment(s[1..])
  }

  /** Atomic identifiers compare without query, fragment or the older scheme. */
  function Pure(raw: string): string {
    if !(("atomic:" <= raw && !("atomic://" <= raw)) || "did:ad:" <= raw) then raw
    else
      var bare := UpToFragment(raw);
      if "did:ad:" <= bare then "atomic:" + bare[|"did:ad:"|..] else bare
  }

  // ----- Resolved duplicates -----

  function Snapshot(row: Row): Row {
    row.(resolution := NoResolution, values := map p | p in row.values && p !in BOOKKEEPING :: row.values[p])
  }

  predicate Wins(store: Store, matches: set<Subject>, subject: Subject)
    requires subject in matches && matches <= store.Keys
  {
    var resolution := store[subject].resolution;
    && resolution.Reviewed?
    && resolution.canonical == Pure(subject)
    && |resolution.members| == |matches|
    && forall other :: other in matches ==>
         && Pure(other) in resolution.members
         && (other != subject ==>
               && (store[other].resolution.Reviewed? ==> store[other].resolution.id in resolution.supersedes)
               && resolution.members[Pure(other)] == Snapshot(store[other]))
  }

  predicate OnlyWinner(store: Store, matches: set<Subject>, subject: Subject)
    requires subject in matches && matches <= store.Keys
  {
    Wins(store, matches, subject) && forall other :: other in matches && Wins(store, matches, other) ==> other == subject
  }

  /** The one row a complete review chose among the matches, if there is exactly one. */
  predicate ResolvesTo(store: Store, matches: set<Subject>, subject: Subject)
    requires matches <= store.Keys
  {
    && subject in matches
    && if |matches| == 1 && store[subject].resolution.NoResolution? then true else OnlyWinner(store, matches, subject)
  }

  // ----- Matching -----

  predicate Under(row: Row, parent: string) {
    row.parent.Some? && Pure(row.parent.value) == Pure(parent)
  }

  /** Rows under the parent that carry the source id. */
  function BySource(store: Store, parent: string, sourceId: string): (matches: set<Subject>)
    ensures matches <= store.Keys
  {
    set s | s in store && Under(store[s], parent) && store[s].localId == Some(sourceId)
  }

  function ByLegacy(store: Store, parent: string, legacy: Legacy): (matches: set<Subject>)
    ensures matches <= store.Keys
  {
    if legacy.NoLegacy? then {}
    else set s | s in store && Under(store[s], parent) && legacy.property in store[s].values && store[s].values[legacy.property] == legacy.value
  }

  function Matches(store: Store, parent: string, r: Record): (matches: set<Subject>)
    ensures matches <= store.Keys
  {
    if IsLocal(parent) then {}
    else
      var known := BySource(store, parent, r.sourceId);
      if known != {} then known else ByLegacy(store, parent, r.legacy)
  }

  /** Several matches, or one that takes part in a review, need a decision. */
  predicate NeedsReview(store: Store, matches: set<Subject>)
    requires matches <= store.Keys
  {
    |matches| > 1 || exists s :: s in matches && !store[s].resolution.NoResolution?
  }

  predicate Decided(store: Store, matches: set<Subject>)
    requires matches <= store.Keys
  {
    exists s :: s in matches && ResolvesTo(store, matches, s)
  }

  /** `Found(None)` means a new row; `Ambiguous` stops the import with a problem. */
  datatype Find = Found(subject: Option<Subject>) | Ambiguous(matches: set<Subject>) | Refused(error: string)

  ghost function FindRow(store: Store, parent: string, r: Record): Find {
    var matches := Matches(store, parent, r);
    if matches == {} then Found(None)
    else if NeedsReview(store, matches) && !Decided(store, matches) then Ambiguous(matches)
    else Fits(Chosen(store, matches), store[Chosen(store, matches)], r)
  }

  /** A matched row must have the record's classes and no other source id. */
  function Fits(s: Subject, row: Row, r: Record): Find {
    if row.isA.None? || exists k :: 0 <= k < |r.isA| && r.isA[k] !in row.isA.value then Refused("Import identity belongs to a different class")
    else if row.localId.Some? && row.localId != Some(r.sourceId) then Refused("Existing record belongs to another import identity")
    else Found(Some(s))
  }

  ghost function Chosen(store: Store, matches: set<Subject>): (s: Subject)
    requires matches <= store.Keys && matches != {}
    requires NeedsReview(store, matches) ==> Decided(store, matches)
    ensures s in matches
  {
    if NeedsReview(store, matches) then var s :| ResolvesTo(store, matches, s); s
    else var s :| s in matches; s
  }

  // ----- First loop: binding records to rows, parents first -----

  /** `order` is the order in which the records were bound. */
  datatype Progress = Progress(bindings: map<string, Subject>, destinations: map<string, string>, identities: set<(string, string)>, order: seq<string>)

  const NOTHING_BOUND := Progress(map[], map[], {}, [])

  datatype Visit = Skipped | Bound(progress: Progress) | Unresolved(matches: set<Subject>) | Failed(error: string)

  function ParentOf(bindings: map<string, Subject>, r: Record): string
    requires IsLocal(r.parent) ==> LocalPart(r.parent) in bindings
  {
    if IsLocal(r.parent) then bindings[LocalPart(r.parent)] else r.parent
  }

  /** A record without a row is bound to its own local reference. */
  function BoundTo(subject: Option<Subject>, r: Record): Subject {
    if subject.Some? then subject.value else LOCAL + r.localId
  }

  ghost function VisitRecord(store: Store, p: Progress, r: Record): Visit {
    if r.sourceId == "" || r.localId == "" then Failed("Import records need sourceId and localId")
    else if IsLocal(r.parent) && LocalPart(r.parent) !in p.bindings then Skipped
    else
      var parent := ParentOf(p.bindings, r);
      var key := (Pure(parent), r.sourceId);
      if key in p.identities then Failed("Duplicate destination/source identity in import batch")
      else match FindRow(store, parent, r)
        case Refused(error) => Failed(error)
        case Ambiguous(matches) => Unresolved(matches)
        case Found(subject) =>
          Bound(Progress(p.bindings[r.localId := BoundTo(subject, r)],
                         p.destinations[r.localId := parent],
                         p.identities + {key},
                         p.order + [r.localId]))
  }

  datatype Sweep = Swept(progress: Progress, left: seq<Record>) | Stopped(visit: Visit)

  /** One pass over the pending records; a record bound early serves those after it. */
  ghost function SweepOnce(store: Store, p: Progress, pending: seq<Record>): (s: Sweep)
    ensures if s.Swept? then |s.left| <= |pending| else s.visit.Unresolved? || s.visit.Failed?
    decreases |pending|
  {
    if pending == [] then Swept(p, [])
    else match VisitRecord(store, p, pending[0])
      case Skipped =>
        var rest := SweepOnce(store, p, pending[1..]);
        if rest.Swept? then Swept(rest.progress, [pending[0]] + rest.left) else rest
      case Bound(next) => SweepOnce(store, next, pending[1..])
      case stop => Stopped(stop)
  }

  const CYCLE := "Import parent cycle"

  ghost function Rounds(store: Store, p: Progress, pending: seq<Record>): (v: Visit)
    ensures !v.Skipped?
    decreases |pending|
  {
    if pending == [] then Bound(p)
    else match SweepOnce(store, p, pending)
      case Stopped(visit) => visit
      case Swept(next, left) => if |left| == |pending| then Failed(CYCLE) else Rounds(store, next, left)
  }

  predicate DistinctLocalIds(records: seq<Record>) {
    forall i, j :: 0 <= i < j < |records| ==> records[i].localId != records[j].localId
  }

  ghost function BindAll(store: Store, records: seq<Record>): Visit {
    if !DistinctLocalIds(records) then Failed("Duplicate localId in import batch") else Rounds(store, NOTHING_BOUND, records)
  }

  // ----- Second loop: creating and merging -----

  function Resolve(bindings: map<string, Subject>, v: Value): Result<Value> {
    match v
    case Text(s) => if IsLocal(s) then (if LocalPart(s) in bindings then Ok(Text(bindings[LocalPart(s)])) else Err("Unknown import reference")) else Ok(v)
    case List(items) =>
      if exists i :: 0 <= i < |items| && Resolve(bindings, items[i]).Err? then Err("Unknown import reference")
      else Ok(List(seq(|items|, i requires 0 <= i < |items| && Resolve(bindings, items[i]).Ok? => Resolve(bindings, items[i]).value)))
    case Object(fields) =>
      if exists k :: k in fields && Resolve(bindings, fields[k]).Err? then Err("Unknown import reference")
      else Ok(Object(map k | k in fields && Resolve(bindings, fields[k]).Ok? :: Resolve(bindings, fields[k]).value))
    case _ => Ok(v)
  }

  predicate AllResolve(bindings: map<string, Subject>, values: map<Property, Value>) {
    forall p :: p in values ==> Resolve(bindings, values[p]).Ok?
  }

  function ResolvedValues(bindings: map<string, Subject>, values: map<Property, Value>): map<Property, Value>
    requires AllResolve(bindings, values)
  {
    map p | p in values :: Resolve(bindings, values[p]).value
  }

  function Lookup(values: map<Property, Value>, p: Property): Option<Value> {
    if p in values then Some(values[p]) else None
  }

  datatype Merge = Keep | Put | Clash

  /** What to do with one incoming property of an existing row. */
  function Judge(current: Row, append: bool, p: Property, incoming: Value): Merge
    requires !current.baseline.InvalidBaseline?
  {
    var here := Lookup(current.values, p);
    var known := current.baseline.Saved?;
    var before := if known then Lookup(current.baseline.values, p) else None;
    var changedAppendSource := known && append && before != Some(incoming);
    if here == Some(incoming) && !changedAppendSource then Keep
    else if !known || changedAppendSource || (here != before && before != Some(incoming)) then Clash
    else if before == Some(incoming) then Keep
    else Put
  }

  datatype ImportClash = ImportClash(source: Value, current: Option<Value>, previous: Option<Value>, appendOnly: bool)

  datatype Intent =
    | CreateIntent(localId: string, parent: string, isA: seq<string>, sourceId: string, values: map<Property, Value>)
    | SetIntent(subject: Subject, put: map<Property, Value>, baseline: Option<Baseline>, adopts: Option<string>)

  /** One problem per conflicting record, or the ambiguity that stopped the import. */
  datatype Problem = ImportConflict(subject: Subject, clashes: map<Property, ImportClash>) | ImportCollision(matches: set<Subject>)

  datatype Outcome = Clashing(clashes: map<Property, ImportClash>) | Writes(intent: Intent) | Unchanged

  /** The incoming values to write, among the properties in `scope`. */
  ghost function Pick(current: Row, append: bool, values: map<Property, Value>, scope: set<Property>): (m: map<Property, Value>)
    requires !current.baseline.InvalidBaseline?
    ensures forall p :: p in m <==> p in scope && p in values && Judge(current, append, p, values[p]) == Put
    ensures forall p :: p in m ==> m[p] == values[p]
  {
    if scope == {} then map[]
    else
      var p :| p in scope;
      var rest := Pick(current, append, values, scope - {p});
      if p in values && Judge(current, append, p, values[p]) == Put then rest[p := values[p]] else rest
  }

  function ClashOf(current: Row, append: bool, p: Property, incoming: Value): ImportClash {
    ImportClash(incoming, Lookup(current.values, p), if current.baseline.Saved? then Lookup(current.baseline.values, p) else None, append)
  }

  /** The conflicts among the properties in `scope`. */
  ghost function Clashes(current: Row, append: bool, values: map<Property, Value>, scope: set<Property>): (m: map<Property, ImportClash>)
    requires !current.baseline.InvalidBaseline?
    ensures forall p :: p in m <==> p in scope && p in values && Judge(current, append, p, values[p]) == Clash
    ensures forall p :: p in m ==> m[p] == ClashOf(current, append, p, values[p])
  {
    if scope == {} then map[]
    else
      var p :| p in scope;
      var rest := Clashes(current, append, values, scope - {p});
      if p in values && Judge(current, append, p, values[p]) == Clash then rest[p := ClashOf(current, append, p, values[p])] else rest
  }

  function Prior(current: Row): map<Property, Value> {
    if current.baseline.Saved? then current.baseline.values else map[]
  }

  ghost function MergeRow(subject: Subject, current: Row, r: Record, values: map<Property, Value>): Outcome
    requires !current.baseline.InvalidBaseline?
  {
    var clashes := Clashes(current, r.append, values, values.Keys);
    if clashes != map[] then Clashing(clashes)
    else
      var put := Pick(current, r.append, values, values.Keys);
      var next := Prior(current) + values;
      var baseline := if current.baseline.Saved? && current.baseline.values == next then None else Some(Saved(next, Prior(current)));
      var sourceId := if current.localId.None? then Some(r.sourceId) else None;
      if put == map[] && baseline.None? && sourceId.None? then Unchanged
      else Writes(SetIntent(subject, put, baseline, sourceId))
  }

  lemma PickGrows(current: Row, append: bool, values: map<Property, Value>, scope: set<Property>, p: Property)
    requires !current.baseline.InvalidBaseline? && p in values
    ensures Pick(current, append, values, scope + {p}) ==
      if Judge(current, append, p, values[p]) == Put then Pick(current, append, values, scope)[p := values[p]] else Pick(current, append, values, scope)
  {
    hide *;
    var before, after := Pick(current, append, values, scope), Pick(current, append, values, scope + {p});
    var target := if Judge(current, append, p, values[p]) == Put then before[p := values[p]] else before;
    assert forall q :: q in after <==> q in target;
    assert forall q :: q in after ==> after[q] == target[q];
    assert after == target;
  }

  lemma ClashesGrow(current: Row, append: bool, values: map<Property, Value>, scope: set<Property>, p: Property)
    requires !current.baseline.InvalidBaseline? && p in values
    ensures Clashes(current, append, values, scope + {p}) ==
      if Judge(current, append, p, values[p]) == Clash
      then Clashes(current, append, values, scope)[p := ClashOf(current, append, p, values[p])]
      else Clashes(current, append, values, scope)
  {
    hide *;
    var before, after := Clashes(current, append, values, scope), Clashes(current, append, values, scope + {p});
    var target := if Judge(current, append, p, values[p]) == Clash then before[p := ClashOf(current, append, p, values[p])] else before;
    assert forall q :: q in after <==> q in target;
    assert forall q :: q in after ==> after[q] == target[q];
    assert after == target;
  }

  /** The property loop of one existing row. */
  method Merged(subject: Subject, current: Row, r: Record, values: map<Property, Value>) returns (outcome: Outcome)
    requires !current.baseline.InvalidBaseline?
    ensures outcome == MergeRow(subject, current, r, values)
  {
    hide Judge;
    var put: map<Property, Value> := map[];
    var clashes: map<Property, ImportClash> := map[];
    var pending := values.Keys;
    ghost var done: set<Property> := {};
    assert Pick(current, r.append, values, {}) == map[] && Clashes(current, r.append, values, {}) == map[];
    while pending != {}
      invariant done + pending == values.Keys && done !! pending
      invariant put == Pick(current, r.append, values, done)
      invariant clashes == Clashes(current, r.append, values, done)
    {
      var p :| p in pending;
      PickGrows(current, r.append, values, done, p);
      ClashesGrow(current, r.append, values, done, p);
      match Judge(current, r.append, p, values[p]) {
        case Keep =>
        case Put => put := put[p := values[p]];
        case Clash =>
          clashes := clashes[p := ClashOf(current, r.append, p, values[p])];
      }
      pending, done := pending - {p}, done + {p};
    }
    assert done == values.Keys;
    if clashes != map[] {
      return Clashing(clashes);
    }
    var next := Prior(current) + values;
    var baseline := if current.baseline.Saved? && current.baseline.values == next then None else Some(Saved(next, Prior(current)));
    var sourceId := if current.localId.None? then Some(r.sourceId) else None;
    if put == map[] && baseline.None? && sourceId.None? {
      return Unchanged;
    }
    return Writes(SetIntent(subject, put, baseline, sourceId));
  }

  datatype Report = Report(intents: seq<Intent>, problems: seq<Problem>, created: nat, updated: nat, untouched: nat)

  const NOTHING_YET := Report([], [], 0, 0, 0)

  ghost function ImportOne(store: Store, p: Progress, report: Report, r: Record): Result<Report> {
    if r.values.Keys * METADATA != {} then Err("Source values cannot set import identity or baseline metadata")
    else if !AllResolve(p.bindings, r.values) then Err("Unknown import reference")
    else if r.localId !in p.bindings || r.localId !in p.destinations then Err("Unbound record")
    else
      var values := ResolvedValues(p.bindings, r.values);
      var subject := p.bindings[r.localId];
      if IsLocal(subject) then
        Ok(report.(intents := report.intents + [CreateIntent(r.localId, p.destinations[r.localId], r.isA, r.sourceId, values)],
                   created := report.created + 1))
      else if subject !in store then Err("Unreadable resource")
      else if store[subject].baseline.InvalidBaseline? then Err("Invalid saved import baseline")
      else match MergeRow(subject, store[subject], r, values)
        case Clashing(clashes) => Ok(report.(problems := report.problems + [ImportConflict(subject, clashes)]))
        case Writes(intent) => Ok(report.(intents := report.intents + [intent], updated := report.updated + 1))
        case Unchanged => Ok(report.(untouched := report.untouched + 1))
  }

  ghost function ImportEach(store: Store, p: Progress, records: seq<Record>): Result<Report> {
    if records == [] then Ok(NOTHING_YET)
    else
      var before :- ImportEach(store, p, records[..|records| - 1]);
      ImportOne(store, p, before, records[|records| - 1])
  }

  ghost function Import(store: Store, records: seq<Record>): Result<Report> {
    match BindAll(store, records)
    case Bound(p) => ImportEach(store, p, records)
    case Unresolved(matches) => Ok(NOTHING_YET.(problems := [ImportCollision(matches)]))
    case Failed(error) => Err(error)
    case Skipped => Err("")
  }

  // ----- The loops -----

  lemma OneOf(matches: set<Subject>, s: Subject, t: Subject)
    requires s in matches && t in matches && |matches| <= 1
    ensures s == t
  {
    assert |matches - {s}| == 0;
    assert t !in matches - {s};
  }

  lemma ChoiceIsUnique(store: Store, matches: set<Subject>, s: Subject)
    requires matches <= store.Keys && s in matches
    requires if NeedsReview(store, matches) then ResolvesTo(store, matches, s) else true
    ensures NeedsReview(store, matches) ==> Decided(store, matches)
    ensures s == Chosen(store, matches)
  {
    var c := Chosen(store, matches);
    if |matches| <= 1 {
      OneOf(matches, s, c);
    }
  }

  method FindMatch(store: Store, parent: string, r: Record) returns (found: Find)
    ensures found == FindRow(store, parent, r)
  {
    var matches := {};
    if !IsLocal(parent) {
      matches := BySource(store, parent, r.sourceId);
      if matches == {} && r.legacy.Legacy? {
        matches := ByLegacy(store, parent, r.legacy);
      }
    }
    assert matches == Matches(store, parent, r);
    if matches == {} {
      return Found(None);
    }
    var s :| s in matches;
    if NeedsReview(store, matches) {
      var winners := set w | w in matches && ResolvesTo(store, matches, w);
      assert forall w :: w in matches && ResolvesTo(store, matches, w) ==> w in winners;
      if winners == {} {
        return Ambiguous(matches);
      }
      s :| s in winners;
    }
    ChoiceIsUnique(store, matches, s);
    found := Fits(s, store[s], r);
  }

  method Visited(store: Store, p: Progress, r: Record) returns (v: Visit)
    ensures v == VisitRecord(store, p, r)
  {
    if r.sourceId == "" || r.localId == "" {
      return Failed("Import records need sourceId and localId");
    }
    if IsLocal(r.parent) && LocalPart(r.parent) !in p.bindings {
      return Skipped;
    }
    var parent := ParentOf(p.bindings, r);
    var key := (Pure(parent), r.sourceId);
    if key in p.identities {
      return Failed("Duplicate destination/source identity in import batch");
    }
    var found := FindMatch(store, parent, r);
    match found {
      case Refused(error) => v := Failed(error);
      case Ambiguous(matches) => v := Unresolved(matches);
      case Found(subject) =>
        v := Bound(Progress(p.bindings[r.localId := BoundTo(subject, r)], p.destinations[r.localId := parent], p.identities + {key}, p.order + [r.localId]));
    }
  }

  /** How a pass goes on once the records kept so far are put in front. */
  ghost function KeptBefore(left: seq<Record>, rest: Sweep): Sweep {
    if rest.Swept? then Swept(rest.progress, left + rest.left) else rest
  }

  method OnePass(store: Store, p: Progress, pending: seq<Record>) returns (s: Sweep)
    ensures s == SweepOnce(store, p, pending)
  {
    hide VisitRecord;
    var q := p;
    var left: seq<Record> := [];
    var i := 0;
    while i < |pending|
      invariant 0 <= i <= |pending|
      invariant SweepOnce(store, p, pending) == KeptBefore(left, SweepOnce(store, q, pending[i..]))
    {
      var visit := Visited(store, q, pending[i]);
      assert pending[i..][1..] == pending[i + 1..];
      match visit {
        case Skipped =>
          ghost var rest := SweepOnce(store, q, pending[i + 1..]);
          assert rest.Swept? ==> left + ([pending[i]] + rest.left) == (left + [pending[i]]) + rest.left;
          left := left + [pending[i]];
        case Bound(next) => q := next;
        case stop => return Stopped(stop);
      }
      i := i + 1;
    }
    assert left + [] == left;
    return Swept(q, left);
  }

  /** The first loop: passes over the pending records until all are bound or none can be. */
  method BindRecords(store: Store, records: seq<Record>) returns (v: Visit)
    ensures v == BindAll(store, records)
  {
    if !DistinctLocalIds(records) {
      return Failed("Duplicate localId in import batch");
    }
    var p, pending := NOTHING_BOUND, records;
    while pending != []
      invariant BindAll(store, records) == Rounds(store, p, pending)
      decreases |pending|
    {
      var pass := OnePass(store, p, pending);
      match pass {
        case Stopped(visit) => return visit;
        case Swept(next, left) =>
          if |left| == |pending| {
            return Failed(CYCLE);
          }
          p, pending := next, left;
      }
    }
    return Bound(p);
  }

  method OneImported(store: Store, p: Progress, report: Report, r: Record) returns (next: Result<Report>)
    ensures next == ImportOne(store, p, report, r)
  {
    if r.values.Keys * METADATA != {} {
      return Err("Source values cannot set import identity or baseline metadata");
    }
    if !AllResolve(p.bindings, r.values) {
      return Err("Unknown import reference");
    }
    if r.localId !in p.bindings || r.localId !in p.destinations {
      return Err("Unbound record");
    }
    var values := ResolvedValues(p.bindings, r.values);
    var subject := p.bindings[r.localId];
    if IsLocal(subject) {
      return Ok(report.(intents := report.intents + [CreateIntent(r.localId, p.destinations[r.localId], r.isA, r.sourceId, values)],
                        created := report.created + 1));
    }
    if subject !in store {
      return Err("Unreadable resource");
    }
    if store[subject].baseline.InvalidBaseline? {
      return Err("Invalid saved import baseline");
    }
    var outcome := Merged(subject, store[subject], r, values);
    match outcome {
      case Clashing(clashes) => next := Ok(report.(problems := report.problems + [ImportConflict(subject, clashes)]));
      case Writes(intent) => next := Ok(report.(intents := report.intents + [intent], updated := report.updated + 1));
      case Unchanged => next := Ok(report.(untouched := report.untouched + 1));
    }
  }

  /** Binds every record, then proposes one intent or problem for each in batch order. */
  method ImportBatch(store: Store, records: seq<Record>) returns (result: Result<Report>)
    ensures result == Import(store, records)
  {
    var visit := BindRecords(store, records);
    match visit {
      case Failed(error) => return Err(error);
      case Unresolved(matches) => return Ok(NOTHING_YET.(problems := [ImportCollision(matches)]));
      case Skipped => return Err("");
      case Bound(p) =>
        var report := NOTHING_YET;
        for i := 0 to |records|
          invariant ImportEach(store, p, records[..i]) == Ok(report)
        {
          assert records[..i + 1][..i] == records[..i];
          var next := OneImported(store, p, report, records[i]);
          if next.Err? {
            StoppedImport(store, p, records, i + 1);
            return next;
          }
          report := next.value;
        }
        assert records[..|records|] == records;
        return Ok(report);
    }
  }

  lemma {:induction false} StoppedImport(store: Store, p: Progress, records: seq<Record>, n: nat)
    requires n <= |records| && ImportEach(store, p, records[..n]).Err?
    ensures ImportEach(store, p, records) == ImportEach(store, p, records[..n])
    decreases |records|
  {
    if n == |records| {
      assert records[..n] == records;
    } else {
      assert records[..|records| - 1][..n] == records[..n];
      StoppedImport(store, p, records[..|records| - 1], n);
    }
  }
}
