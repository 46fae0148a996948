/** The invariant of a run without outside edits, turn by turn. */
module NotionQuiet {
  import opened Wrappers
  import opened NotionModel
  import opened NotionRows
  import opened NotionViews
  import opened NotionSync
  import opened NotionSafety
  import opened NotionHost
  import opened NotionFrames
  import opened NotionConvergence

  /** The provider object and the Atomic resource one change works on. */
  datatype Slot = Slot(kind: Kind, id: Option<NotionId>, subject: Option<Iri>)

  function SlotOf(ch: Change): Slot {
    Slot(ch.kind, ch.id, ch.subject)
  }

  function CurrentSlot(ch: Change, cursor: Cursor, result: Receipt): Slot {
    match cursor.stage
    case Start | Done => SlotOf(ch)
    case Created => Slot(ch.kind, if result.PageReceipt? then Some(result.id) else None, cursor.subject)
    case Local | Verify => Slot(ch.kind, cursor.id, cursor.subject)
    case Written => Slot(ch.kind, cursor.id, if result.AtomicReceipt? then result.subject else None)
  }

  function SlotAt(p: Proposal, cursor: Cursor, result: Receipt, i: nat): Slot
    requires i < |p.changes| && |cursor.records| == cursor.index
  {
    if i < cursor.index then Slot(cursor.records[i].kind, cursor.records[i].remote, cursor.records[i].local)
    else if i == cursor.index then CurrentSlot(p.changes[i], cursor, result)
    else SlotOf(p.changes[i])
  }

  function Slots(p: Proposal, cursor: Cursor, result: Receipt): (slots: seq<Slot>)
    requires |cursor.records| == cursor.index
  {
    seq(|p.changes|, i requires 0 <= i < |p.changes| => SlotAt(p, cursor, result, i))
  }

  ghost predicate Apart(a: Slot, b: Slot) {
    && (a.kind == b.kind ==> a.id.None? || a.id != b.id)
    && (a.subject.None? || a.subject != b.subject)
  }

  ghost predicate Lives(w: World, slot: Slot) {
    && (slot.id.Some? ==> match slot.kind
          case PageChange => slot.id.value in w.pages
          case ViewChange => slot.id.value in w.views
          case SchemaChange => slot.id.value in w.schema.properties)
    && (slot.subject.Some? ==> slot.subject.value in w.resources)
  }

  /** Page ids the table mentions belong to pages that exist. */
  ghost predicate Hosted(w: World, c: Config) {
    forall x :: x !in w.pages ==> TableMatches(w, c, c.identity, Id(x)) == {} && TableMatches(w, c, LocalId, SourceId(c, x)) == {}
  }

  ghost predicate Untagged(c: Config, subject: Option<Iri>) {
    subject.Some? ==> !IsTag(c, subject.value)
  }

  /** Still exactly as previewed, and nobody else claims its page. */
  ghost predicate Pending(w: World, conn: Connection, c: Config, ch: Change) {
    && AsPreviewed(w, conn, c, ch) == Ok(true)
    && Untagged(c, ch.subject)
    && (ch.kind == PageChange ==> OwnsIdentity(w, c, ch.id, ch.subject))
  }

  /** Every slot is of its change's kind and live, and no two share an object or a resource. */
  ghost predicate Placed(w: World, p: Proposal, slots: seq<Slot>) {
    && |slots| == |p.changes|
    && (forall i :: 0 <= i < |slots| ==> Lives(w, slots[i]) && slots[i].kind == p.changes[i].kind)
    && (forall i :: 0 <= i < |slots| && slots[i].kind != PageChange ==> slots[i] == SlotOf(p.changes[i]))
    && (forall i, j :: 0 <= i < |slots| && 0 <= j < |slots| && i != j ==> Apart(slots[i], slots[j]))
  }

  ghost predicate HasPage(slots: seq<Slot>, x: NotionId) {
    exists i :: 0 <= i < |slots| && slots[i].kind == PageChange && slots[i].id == Some(x)
  }

  ghost predicate HasRow(slots: seq<Slot>, s: Iri) {
    exists i :: 0 <= i < |slots| && slots[i].kind == PageChange && slots[i].subject == Some(s)
  }

  /** Every page and every row of the table belongs to some change. */
  ghost predicate Covered(w: World, c: Config, slots: seq<Slot>) {
    && (forall x :: x in w.pages ==> HasPage(slots, x))
    && (forall s :: s in w.resources && InTable(w.resources[s], c) ==> HasRow(slots, s))
  }

  ghost predicate Before(w: World, conn: Connection, c: Config, p: Proposal, k: nat, slots: seq<Slot>)
    requires k <= |p.changes| == |slots| && TitleField(c.fields).Some?
  {
    forall i :: 0 <= i < k ==> Finished(w, conn, c, p.changes[i], slots[i].id, slots[i].subject)
  }

  ghost predicate Behind(w: World, conn: Connection, c: Config, p: Proposal, k: nat, slots: seq<Slot>)
    requires k <= |p.changes| == |slots|
  {
    forall i :: k < i < |slots| ==> slots[i] == SlotOf(p.changes[i]) && Pending(w, conn, c, p.changes[i])
  }

  /** What holds of every change but the current one, `k`. */
  ghost predicate Core(w: World, conn: Connection, c: Config, p: Proposal, k: nat, slots: seq<Slot>) {
    && GoodConfig(c)
    && k <= |p.changes| == |slots|
    && CheckSchema(w, c).Ok?
    && Hosted(w, c)
    && (forall i :: 0 <= i < |slots| ==> Settable(c, p.changes[i]))
    && Placed(w, p, slots)
    && Covered(w, c, slots)
    && Before(w, conn, c, p, k, slots)
    && Behind(w, conn, c, p, k, slots)
  }

  /** What holds of the current change at each stage. */
  ghost predicate Current(w: World, conn: Connection, c: Config, ch: Change, cursor: Cursor, result: Receipt)
    requires TitleField(c.fields).Some?
  {
    match cursor.stage
    case Start => Pending(w, conn, c, ch)
    case Created =>
      && ch.kind == PageChange && ch.id.None? && cursor.subject == ch.subject
      && result.PageReceipt? && result.ok
      && result.id in w.pages && w.pages[result.id] == result.page
      && PageProjection(result.page, c) == Ok(ch.desired)
      && ReadLocal(w, conn, c, ch, ch.subject) == Ok(ch.local)
      && Untagged(c, ch.subject)
      && OwnsIdentity(w, c, Some(result.id), ch.subject)
    case Local =>
      && cursor.id.Some? && cursor.subject == ch.subject
      && ReadRemote(w, c, ch.kind, cursor.id) == Ok(ch.desired)
      && ReadLocal(w, conn, c, ch, ch.subject) == Ok(ch.local)
      && Untagged(c, ch.subject)
      && (ch.kind == PageChange ==> OwnsIdentity(w, c, cursor.id, cursor.subject))
    case Written =>
      && result.AtomicReceipt? && result.subject.Some?
      && Finished(w, conn, c, ch, cursor.id, result.subject)
    case Verify => Finished(w, conn, c, ch, cursor.id, cursor.subject)
    case Done => false
  }

  ghost predicate Synced(w: World, conn: Connection, c: Config, p: Proposal, cursor: Cursor, result: Receipt) {
    && Sound(p, cursor)
    && Core(w, conn, c, p, cursor.index, Slots(p, cursor, result))
    && (cursor.index < |p.changes| ==> Current(w, conn, c, p.changes[cursor.index], cursor, result))
  }

  // ----- Frames over a single change -----

  lemma PendingAfterRemote(w: World, after: World, conn: Connection, c: Config, ch: Change, kind: Kind, x: NotionId)
    requires OnlyRemote(w, after, kind, x) && Pending(w, conn, c, ch)
    requires ch.kind != kind || ch.id != Some(x)
    ensures Pending(after, conn, c, ch)
  {
    RemoteFrame(w, after, kind, x, c);
    LocalReadsIgnoreRemote(w, after, conn, c, ch, ch.subject);
    OwnedAfterRemote(w, after, c, ch.id, ch.subject);
  }

  lemma OwnedAfterRemote(w: World, after: World, c: Config, id: Option<NotionId>, subject: Option<Iri>)
    requires after.resources == w.resources
    ensures OwnsIdentity(after, c, id, subject) <==> OwnsIdentity(w, c, id, subject)
  {
    if id.Some? {
      MatchesIgnoreRemote(w, after, c, c.identity, Id(id.value));
      MatchesIgnoreRemote(w, after, c, LocalId, SourceId(c, id.value));
    }
  }

  lemma FinishedAfterRemote(w: World, after: World, conn: Connection, c: Config, ch: Change, id: Option<NotionId>, subject: Option<Iri>, kind: Kind, x: NotionId)
    requires TitleField(c.fields).Some?
    requires OnlyRemote(w, after, kind, x) && Finished(w, conn, c, ch, id, subject)
    requires ch.kind != kind || id != Some(x)
    ensures Finished(after, conn, c, ch, id, subject)
  {
    RemoteFrame(w, after, kind, x, c);
    LocalReadsIgnoreRemote(w, after, conn, c, ch, subject);
    OwnedAfterRemote(w, after, c, id, subject);
  }

  /** The write to `s` made no new claim to page `x`. */
  ghost predicate NoNewClaim(w: World, after: World, s: Iri, c: Config, x: NotionId) {
    && (s in TableMatches(after, c, c.identity, Id(x)) ==> s in TableMatches(w, c, c.identity, Id(x)))
    && (s in TableMatches(after, c, LocalId, SourceId(c, x)) ==> s in TableMatches(w, c, LocalId, SourceId(c, x)))
  }

  lemma OwnedAfterLocal(w: World, after: World, s: Iri, c: Config, id: Option<NotionId>, subject: Option<Iri>)
    requires OnlyLocal(w, after, s) && subject != Some(s)
    requires id.Some? ==> NoNewClaim(w, after, s, c, id.value)
    requires OwnsIdentity(w, c, id, subject)
    ensures OwnsIdentity(after, c, id, subject)
  {
    if id.Some? {
      MatchesAfterLocal(w, after, s, c, c.identity, Id(id.value));
      MatchesAfterLocal(w, after, s, c, LocalId, SourceId(c, id.value));
    }
    if subject.Some? {
      assert Read(after, subject.value) == Read(w, subject.value);
    }
  }

  lemma PendingAfterLocal(w: World, after: World, s: Iri, conn: Connection, c: Config, ch: Change)
    requires OnlyLocal(w, after, s) && Pending(w, conn, c, ch) && ch.subject != Some(s)
    requires s in w.resources ==> !IsTag(c, s)
    requires ch.kind == PageChange && ch.id.Some? ==> NoNewClaim(w, after, s, c, ch.id.value)
    ensures Pending(after, conn, c, ch)
  {
    LocalFrame(w, after, s, c);
    OtherLocalReads(w, after, s, conn, c, ch, ch.subject);
    if ch.kind == PageChange {
      OwnedAfterLocal(w, after, s, c, ch.id, ch.subject);
    }
  }

  lemma FinishedAfterLocal(w: World, after: World, s: Iri, conn: Connection, c: Config, ch: Change, id: Option<NotionId>, subject: Option<Iri>)
    requires TitleField(c.fields).Some?
    requires OnlyLocal(w, after, s) && Finished(w, conn, c, ch, id, subject) && subject != Some(s)
    requires CheckSchema(w, c).Ok?
    requires s in w.resources ==> !IsTag(c, s)
    requires ch.kind == PageChange ==> NoNewClaim(w, after, s, c, id.value)
    ensures Finished(after, conn, c, ch, id, subject)
  {
    LocalFrame(w, after, s, c);
    OtherLocalReads(w, after, s, conn, c, ch, subject);
    if ch.kind == PageChange {
      OwnedAfterLocal(w, after, s, c, id, subject);
      assert Read(after, subject.value) == Read(w, subject.value);
    }
  }

  // ----- Frames over all other changes -----

  lemma PlacedAfter(w: World, after: World, p: Proposal, k: nat, slots: seq<Slot>, slot: Slot)
    requires Placed(w, p, slots) && k < |slots|
    requires forall t: Slot :: Lives(w, t) ==> Lives(after, t)
    requires Lives(after, slot) && slot.kind == slots[k].kind
    requires slot.id == slots[k].id || (slot.id.Some? && !Lives(w, slot.(subject := None)))
    requires slot.subject == slots[k].subject || (slot.subject.Some? && !Lives(w, slot.(id := None)))
    requires slot.kind == PageChange || slot == slots[k]
    ensures Placed(after, p, slots[k := slot])
    ensures forall i :: 0 <= i < |slots| && i != k ==> Apart(slots[i], slot)
  {
    forall i | 0 <= i < |slots| && i != k ensures Apart(slots[i], slot) && Apart(slot, slots[i]) {
      assert Apart(slots[i], slots[k]) && Apart(slots[k], slots[i]);
      assert Lives(w, slots[i]) && Lives(w, slots[i].(subject := None)) && Lives(w, slots[i].(id := None));
    }
    var next := slots[k := slot];
    forall i, j | 0 <= i < |next| && 0 <= j < |next| && i != j ensures Apart(next[i], next[j]) {
      assert i != k && j != k ==> Apart(slots[i], slots[j]);
    }
  }

  lemma PlacedAfterRemote(w: World, after: World, p: Proposal, k: nat, slots: seq<Slot>, slot: Slot)
    requires Placed(w, p, slots) && k < |slots|
    requires slot.id.Some? && slot.kind == slots[k].kind && slot.subject == slots[k].subject
    requires slot.id == slots[k].id || !Lives(w, slot.(subject := None))
    requires OnlyRemote(w, after, slot.kind, slot.id.value) && Lives(after, slot)
    requires slot.kind == PageChange || slot == slots[k]
    ensures Placed(after, p, slots[k := slot])
    ensures forall i :: 0 <= i < |slots| && i != k ==> Apart(slots[i], slot) && slots[i].kind == p.changes[i].kind
  {
    PlacedAfter(w, after, p, k, slots, slot);
  }

  lemma PlacedAfterLocal(w: World, after: World, p: Proposal, k: nat, slots: seq<Slot>, slot: Slot)
    requires Placed(w, p, slots) && k < |slots|
    requires slot.subject.Some? && slot.kind == slots[k].kind && slot.id == slots[k].id
    requires slot.subject == slots[k].subject || !Lives(w, slot.(id := None))
    requires OnlyLocal(w, after, slot.subject.value)
    requires slot.kind == PageChange || slot == slots[k]
    ensures Placed(after, p, slots[k := slot])
    ensures forall i :: 0 <= i < |slots| && i != k ==> Apart(slots[i], slot) && slots[i].kind == p.changes[i].kind
  {
    assert Lives(w, slots[k]);
    PlacedAfter(w, after, p, k, slots, slot);
  }

  lemma SchemaAfterRemote(w: World, after: World, kind: Kind, x: NotionId, c: Config)
    requires OnlyRemote(w, after, kind, x) && CheckSchema(w, c).Ok?
    ensures CheckSchema(after, c).Ok?
  {
    RemoteFrame(w, after, kind, x, c);
  }

  lemma CoreAfterRemote(w: World, after: World, conn: Connection, c: Config, p: Proposal, k: nat, slots: seq<Slot>, slot: Slot)
    requires k < |p.changes| && Core(w, conn, c, p, k, slots)
    requires slot.id.Some? && slot.kind == slots[k].kind && slot.subject == slots[k].subject
    requires slot.id == slots[k].id || (slots[k].id.None? && !Lives(w, slot.(subject := None)))
    requires OnlyRemote(w, after, slot.kind, slot.id.value) && Lives(after, slot)
    requires slot.kind == PageChange || slot == slots[k]
    ensures Core(after, conn, c, p, k, slots[k := slot])
  {
    PlacedAfterRemote(w, after, p, k, slots, slot);
    SchemaAfterRemote(w, after, slot.kind, slot.id.value, c);
    HostedAfterRemote(w, after, c, slot.kind, slot.id.value);
    CoveredAfterRemote(w, after, c, k, slots, slot);
    BeforeAfterRemote(w, after, conn, c, p, k, slots, slot);
    BehindAfterRemote(w, after, conn, c, p, k, slots, slot);
  }

  lemma CoveredAfterRemote(w: World, after: World, c: Config, k: nat, slots: seq<Slot>, slot: Slot)
    requires k < |slots| && Covered(w, c, slots)
    requires slot.id.Some? && slot.kind == slots[k].kind && slot.subject == slots[k].subject
    requires slot.id == slots[k].id || slots[k].id.None?
    requires OnlyRemote(w, after, slot.kind, slot.id.value)
    ensures Covered(after, c, slots[k := slot])
  {
    var next := slots[k := slot];
    forall x | x in after.pages ensures HasPage(next, x) {
      if x in w.pages {
        var i :| 0 <= i < |slots| && slots[i].kind == PageChange && slots[i].id == Some(x);
        assert next[i].kind == PageChange && next[i].id == Some(x);
      } else {
        assert next[k].kind == PageChange && next[k].id == Some(x);
      }
    }
    forall s | s in after.resources && InTable(after.resources[s], c) ensures HasRow(next, s) {
      var i :| 0 <= i < |slots| && slots[i].kind == PageChange && slots[i].subject == Some(s);
      assert next[i].kind == PageChange && next[i].subject == Some(s);
    }
  }

  lemma CoveredAfterLocal(w: World, after: World, c: Config, k: nat, slots: seq<Slot>, slot: Slot)
    requires k < |slots| && Covered(w, c, slots)
    requires slot.subject.Some? && slot.kind == slots[k].kind && slot.id == slots[k].id
    requires slot.subject == slots[k].subject || slots[k].subject.None?
    requires OnlyLocal(w, after, slot.subject.value)
    requires slot.kind == PageChange || (InTable(Read(after, slot.subject.value), c) ==> InTable(Read(w, slot.subject.value), c))
    ensures Covered(after, c, slots[k := slot])
  {
    var next := slots[k := slot];
    forall x | x in after.pages ensures HasPage(next, x) {
      var i :| 0 <= i < |slots| && slots[i].kind == PageChange && slots[i].id == Some(x);
      assert next[i].kind == PageChange && next[i].id == Some(x);
    }
    forall s | s in after.resources && InTable(after.resources[s], c) ensures HasRow(next, s) {
      if s == slot.subject.value && slot.kind == PageChange {
        assert next[k].kind == PageChange && next[k].subject == Some(s);
      } else {
        assert s in w.resources && InTable(w.resources[s], c);
        var i :| 0 <= i < |slots| && slots[i].kind == PageChange && slots[i].subject == Some(s);
        assert next[i].kind == PageChange && next[i].subject == Some(s);
      }
    }
  }

  lemma BeforeAfterRemote(w: World, after: World, conn: Connection, c: Config, p: Proposal, k: nat, slots: seq<Slot>, slot: Slot)
    requires TitleField(c.fields).Some? && k < |p.changes| == |slots| && slot.id.Some?
    requires Before(w, conn, c, p, k, slots)
    requires OnlyRemote(w, after, slot.kind, slot.id.value)
    requires forall i :: 0 <= i < |slots| && i != k ==> Apart(slots[i], slot) && slots[i].kind == p.changes[i].kind
    ensures Before(after, conn, c, p, k, slots[k := slot])
  {
    forall i | 0 <= i < k ensures Finished(after, conn, c, p.changes[i], slots[i].id, slots[i].subject) {
      assert Apart(slots[i], slot);
      FinishedAfterRemote(w, after, conn, c, p.changes[i], slots[i].id, slots[i].subject, slot.kind, slot.id.value);
    }
  }

  lemma BehindAfterRemote(w: World, after: World, conn: Connection, c: Config, p: Proposal, k: nat, slots: seq<Slot>, slot: Slot)
    requires k < |p.changes| == |slots| && slot.id.Some?
    requires Behind(w, conn, c, p, k, slots)
    requires OnlyRemote(w, after, slot.kind, slot.id.value)
    requires forall i :: 0 <= i < |slots| && i != k ==> Apart(slots[i], slot)
    ensures Behind(after, conn, c, p, k, slots[k := slot])
  {
    forall i | k < i < |slots| ensures Pending(after, conn, c, p.changes[i]) {
      assert Apart(slots[i], slot) && slots[i] == SlotOf(p.changes[i]);
      PendingAfterRemote(w, after, conn, c, p.changes[i], slot.kind, slot.id.value);
    }
  }

  lemma HostedAfterRemote(w: World, after: World, c: Config, kind: Kind, x: NotionId)
    requires OnlyRemote(w, after, kind, x) && Hosted(w, c)
    ensures Hosted(after, c)
  {
    forall y | y !in after.pages
      ensures TableMatches(after, c, c.identity, Id(y)) == {} && TableMatches(after, c, LocalId, SourceId(c, y)) == {}
    {
      MatchesIgnoreRemote(w, after, c, c.identity, Id(y));
      MatchesIgnoreRemote(w, after, c, LocalId, SourceId(c, y));
    }
  }

  lemma HostedAfterLocal(w: World, after: World, s: Iri, c: Config)
    requires OnlyLocal(w, after, s) && Hosted(w, c)
    requires forall x :: x !in w.pages ==> NoNewClaim(w, after, s, c, x)
    ensures Hosted(after, c)
  {
    forall x | x !in after.pages
      ensures TableMatches(after, c, c.identity, Id(x)) == {} && TableMatches(after, c, LocalId, SourceId(c, x)) == {}
    {
      assert NoNewClaim(w, after, s, c, x);
      MatchesAfterLocal(w, after, s, c, c.identity, Id(x));
      MatchesAfterLocal(w, after, s, c, LocalId, SourceId(c, x));
    }
  }

  lemma CoreParts(w: World, conn: Connection, c: Config, p: Proposal, k: nat, slots: seq<Slot>)
    requires Core(w, conn, c, p, k, slots)
    ensures GoodConfig(c) && k <= |p.changes| == |slots| && TitleField(c.fields).Some?
    ensures CheckSchema(w, c).Ok? && Hosted(w, c) && Placed(w, p, slots) && Covered(w, c, slots)
    ensures forall i :: 0 <= i < |slots| ==> Settable(c, p.changes[i])
    ensures Before(w, conn, c, p, k, slots) && Behind(w, conn, c, p, k, slots)
  {
  }

  lemma CoreOf(w: World, conn: Connection, c: Config, p: Proposal, k: nat, slots: seq<Slot>)
    requires GoodConfig(c) && k <= |p.changes| == |slots| && TitleField(c.fields).Some?
    requires CheckSchema(w, c).Ok? && Hosted(w, c) && Placed(w, p, slots) && Covered(w, c, slots)
    requires forall i :: 0 <= i < |slots| ==> Settable(c, p.changes[i])
    requires Before(w, conn, c, p, k, slots) && Behind(w, conn, c, p, k, slots)
    ensures Core(w, conn, c, p, k, slots)
  {
  }

  lemma SchemaStillChecks(w: World, after: World, s: Iri, c: Config)
    requires OnlyLocal(w, after, s) && CheckSchema(w, c).Ok? && (s in w.resources ==> !IsTag(c, s))
    ensures CheckSchema(after, c).Ok?
  {
    hide IsTag;
    SchemaSurvivesLocal(w, after, s, c, c.fields);
  }

  /** No page that does not exist gains a claim. */
  lemma NewClaimsElsewhere(w: World, after: World, c: Config, p: Proposal, k: nat, slots: seq<Slot>, slot: Slot)
    requires k < |slots| && Placed(w, p, slots) && slot.kind == slots[k].kind && slot.id == slots[k].id && slot.subject.Some?
    requires forall x :: Some(x) != slot.id || slot.kind != PageChange ==> NoNewClaim(w, after, slot.subject.value, c, x)
    ensures forall x :: x !in w.pages ==> NoNewClaim(w, after, slot.subject.value, c, x)
  {
    hide NoNewClaim;
    assert Lives(w, slots[k]);
  }

  lemma CoreAfterLocal(w: World, after: World, conn: Connection, c: Config, p: Proposal, k: nat, slots: seq<Slot>, slot: Slot)
    requires k < |p.changes| && Core(w, conn, c, p, k, slots)
    requires slot.subject.Some? && slot.kind == slots[k].kind && slot.id == slots[k].id
    requires slot.subject == slots[k].subject || (slots[k].subject.None? && !Lives(w, slot.(id := None)))
    requires OnlyLocal(w, after, slot.subject.value)
    requires slot.subject.value in w.resources ==> !IsTag(c, slot.subject.value)
    requires forall x :: Some(x) != slot.id || slot.kind != PageChange ==> NoNewClaim(w, after, slot.subject.value, c, x)
    requires slot.kind == PageChange || (InTable(Read(after, slot.subject.value), c) ==> InTable(Read(w, slot.subject.value), c))
    requires slot.kind == PageChange || slot == slots[k]
    ensures Core(after, conn, c, p, k, slots[k := slot])
  {
    var s := slot.subject.value;
    hide *;
    CoreParts(w, conn, c, p, k, slots);
    NewClaimsElsewhere(w, after, c, p, k, slots, slot);
    PlacedAfterLocal(w, after, p, k, slots, slot);
    SchemaStillChecks(w, after, s, c);
    HostedAfterLocal(w, after, s, c);
    CoveredAfterLocal(w, after, c, k, slots, slot);
    BeforeAfterLocal(w, after, conn, c, p, k, slots, slot);
    BehindAfterLocal(w, after, conn, c, p, k, slots, slot);
    CoreOf(after, conn, c, p, k, slots[k := slot]);
  }

  lemma BeforeAfterLocal(w: World, after: World, conn: Connection, c: Config, p: Proposal, k: nat, slots: seq<Slot>, slot: Slot)
    requires TitleField(c.fields).Some? && k < |p.changes| == |slots| && slot.subject.Some?
    requires Before(w, conn, c, p, k, slots) && CheckSchema(w, c).Ok?
    requires OnlyLocal(w, after, slot.subject.value)
    requires slot.subject.value in w.resources ==> !IsTag(c, slot.subject.value)
    requires forall x :: Some(x) != slot.id || slot.kind != PageChange ==> NoNewClaim(w, after, slot.subject.value, c, x)
    requires forall i :: 0 <= i < |slots| && i != k ==> Apart(slots[i], slot) && slots[i].kind == p.changes[i].kind
    ensures Before(after, conn, c, p, k, slots[k := slot])
  {
    forall i | 0 <= i < k ensures Finished(after, conn, c, p.changes[i], slots[i].id, slots[i].subject) {
      assert Apart(slots[i], slot) && Finished(w, conn, c, p.changes[i], slots[i].id, slots[i].subject);
      FinishedAfterLocal(w, after, slot.subject.value, conn, c, p.changes[i], slots[i].id, slots[i].subject);
    }
  }

  lemma BehindAfterLocal(w: World, after: World, conn: Connection, c: Config, p: Proposal, k: nat, slots: seq<Slot>, slot: Slot)
    requires k < |p.changes| == |slots| && slot.subject.Some?
    requires Behind(w, conn, c, p, k, slots)
    requires OnlyLocal(w, after, slot.subject.value)
    requires slot.subject.value in w.resources ==> !IsTag(c, slot.subject.value)
    requires forall x :: Some(x) != slot.id || slot.kind != PageChange ==> NoNewClaim(w, after, slot.subject.value, c, x)
    requires forall i :: 0 <= i < |slots| && i != k ==> Apart(slots[i], slot)
    ensures Behind(after, conn, c, p, k, slots[k := slot])
  {
    forall i | k < i < |slots| ensures Pending(after, conn, c, p.changes[i]) {
      assert Apart(slots[i], slot) && slots[i] == SlotOf(p.changes[i]);
      PendingAfterLocal(w, after, slot.subject.value, conn, c, p.changes[i]);
    }
  }
}
