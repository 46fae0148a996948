/** Runs without outside edits: every turn is possible, and every run that ends
    has brought both sides of every change to `desired`. */
module NotionRuns {
  import opened Wrappers
  import opened NotionModel
  import opened NotionRows
  import opened NotionViews
  import opened NotionSync
  import opened NotionSafety
  import opened NotionHost
  import opened NotionFrames
  import opened NotionConvergence
  import opened NotionQuiet

  ghost predicate ProviderKeeps(w: World, conn: Connection, c: Config, p: Proposal, request: Request, next: Cursor) {
    forall minted :: minted !in w.pages ==> Synced(Provided(w, request, minted), conn, c, p, next, ProviderReceipt(w, request, minted))
  }

  ghost predicate AtomicKeeps(w: World, conn: Connection, c: Config, p: Proposal, intents: seq<Intent>, next: Cursor) {
    forall minted :: minted !in w.resources ==> Synced(AllApplied(w, intents, minted), conn, c, p, next, AtomicReceiptOf(intents, minted))
  }

  /** The turn does not fail, and whatever the host makes of it keeps the invariant. */
  ghost predicate QuietTurn(w: World, conn: Connection, c: Config, p: Proposal, cursor: Cursor, result: Receipt, turn: Turn) {
    match turn
    case Go(next) => Synced(w, conn, c, p, next, result)
    case Return(outcome) => QuietOutcome(w, conn, c, p, cursor, outcome)
  }

  ghost predicate QuietOutcome(w: World, conn: Connection, c: Config, p: Proposal, cursor: Cursor, outcome: Outcome) {
    match outcome
    case Emit(External(_, request), next) => ProviderKeeps(w, conn, c, p, request, next)
    case Emit(Atomic(_, intents), next) => AtomicKeeps(w, conn, c, p, intents, next)
    case Emit(Checkpoint(records), next) =>
      Acceptable(records) && Synced(w, Connection(conn.revision + 1, Recorded(conn.records, records)), c, p, next, NoReceipt)
    case Continue(next) => Synced(w, conn, c, p, next, NoReceipt)
    case Complete => true
    case Fail(_) => false
  }

  lemma SlotsReplaced(p: Proposal, cursor: Cursor, result: Receipt, next: Cursor, later: Receipt)
    requires |cursor.records| == cursor.index < |p.changes|
    requires next.index == cursor.index && next.records == cursor.records
    ensures Slots(p, next, later) == Slots(p, cursor, result)[cursor.index := CurrentSlot(p.changes[cursor.index], next, later)]
  {
  }

  lemma SlotsStay(p: Proposal, cursor: Cursor, result: Receipt, next: Cursor, later: Receipt)
    requires |cursor.records| == cursor.index < |p.changes|
    requires next.index == cursor.index && next.records == cursor.records
    requires CurrentSlot(p.changes[cursor.index], next, later) == CurrentSlot(p.changes[cursor.index], cursor, result)
    ensures Slots(p, next, later) == Slots(p, cursor, result)
  {
  }

  lemma SyncedParts(w: World, conn: Connection, c: Config, p: Proposal, cursor: Cursor, result: Receipt)
    requires Synced(w, conn, c, p, cursor, result) && cursor.index < |p.changes|
    ensures GoodConfig(c) && Settable(c, p.changes[cursor.index])
    ensures Current(w, conn, c, p.changes[cursor.index], cursor, result)
  {
  }

  // ----- Start -----

  /** The current change's provider object, after its write. */
  lemma ProviderWriteLands(w: World, conn: Connection, c: Config, ch: Change, minted: NotionId)
    requires GoodConfig(c) && Settable(c, ch) && AsPreviewed(w, conn, c, ch) == Ok(true)
    requires minted !in w.pages
    ensures var write := ProviderWrite(w, c, ch);
      && write.Ok?
      && (write.value.None? ==> ch.id.Some? && ReadRemote(w, c, ch.kind, ch.id) == Ok(ch.desired))
      && (write.value.Some? ==>
            var after := Provided(w, write.value.value, minted);
            && (write.value.value.CreatePage? <==> ch.id.None?)
            && (ch.id.None? ==>
                  && ch.kind == PageChange
                  && OnlyRemote(w, after, PageChange, minted)
                  && minted in after.pages && PageProjection(after.pages[minted], c) == Ok(ch.desired))
            && (ch.id.Some? ==>
                  && OnlyRemote(w, after, ch.kind, ch.id.value)
                  && ReadRemote(after, c, ch.kind, ch.id) == Ok(ch.desired)))
  {
    hide GoodConfig, PageProjection, CheckSchema, RemoteViewProjection, PagePatchOf, RemoteViewPatch, SettableView, Canonical, ReadLocal;
    match ch.kind {
      case PageChange => PageLands(w, c, ch, minted);
      case SchemaChange => SchemaLands(w, c, ch, minted);
      case ViewChange => ViewLands(w, c, ch, minted);
    }
    var write := ProviderWrite(w, c, ch);
    if write.value.Some? {
      ProvidedOnly(w, write.value.value, minted);
    }
  }

  lemma StartGoes(w: World, conn: Connection, c: Config, p: Proposal, cursor: Cursor, result: Receipt, next: Cursor)
    requires Synced(w, conn, c, p, cursor, result) && cursor.stage == Start && cursor.index < |p.changes|
    requires var ch := p.changes[cursor.index]; ch.id.Some? && ReadRemote(w, c, ch.kind, ch.id) == Ok(ch.desired)
    requires next == cursor.(id := p.changes[cursor.index].id, subject := p.changes[cursor.index].subject, stage := Local)
    ensures Synced(w, conn, c, p, next, result)
  {
    hide GoodConfig, Settable, Before, Behind, ReadLocal, ReadRemote, CheckSchema, Placed, Covered, Hosted, AlignedRecord;
    SlotsStay(p, cursor, result, next, result);
  }

  lemma StillLives(w: World, after: World, slot: Slot)
    requires slot.id.Some? && Lives(w, slot) && OnlyRemote(w, after, slot.kind, slot.id.value)
    ensures Lives(after, slot)
  {
  }

  lemma StartUpdates(w: World, after: World, conn: Connection, c: Config, p: Proposal, cursor: Cursor, result: Receipt, next: Cursor, later: Receipt)
    requires Synced(w, conn, c, p, cursor, result) && cursor.stage == Start && cursor.index < |p.changes|
    requires var ch := p.changes[cursor.index];
      ch.id.Some? && OnlyRemote(w, after, ch.kind, ch.id.value) && ReadRemote(after, c, ch.kind, ch.id) == Ok(ch.desired)
    requires next == cursor.(id := p.changes[cursor.index].id, subject := p.changes[cursor.index].subject, stage := Local)
    ensures Synced(after, conn, c, p, next, later)
  {
    hide GoodConfig, Settable, Hosted, Before, Behind, ReadLocal, ReadRemote, CheckSchema, OwnsIdentity, AlignedRecord;
    var ch := p.changes[cursor.index];
    var slots := Slots(p, cursor, result);
    var slot := CurrentSlot(ch, next, later);
    assert slot == slots[cursor.index] == SlotOf(ch);
    StillLives(w, after, slot);
    CoreAfterRemote(w, after, conn, c, p, cursor.index, slots, slot);
    SlotsReplaced(p, cursor, result, next, later);
    LocalReadsIgnoreRemote(w, after, conn, c, ch, ch.subject);
    OwnedAfterRemote(w, after, c, ch.id, ch.subject);
  }

  lemma CreatedCurrent(w: World, after: World, conn: Connection, c: Config, ch: Change, cursor: Cursor, next: Cursor, result: Receipt, minted: NotionId)
    requires TitleField(c.fields).Some? && Hosted(w, c) && Current(w, conn, c, ch, cursor, result) && cursor.stage == Start
    requires ch.id.None? && ch.kind == PageChange && minted !in w.pages
    requires after.resources == w.resources && minted in after.pages && PageProjection(after.pages[minted], c) == Ok(ch.desired)
    requires next.stage == Created && next.subject == ch.subject
    ensures Current(after, conn, c, ch, next, PageReceipt(true, minted, after.pages[minted]))
  {
    hide ReadLocal, ReadRemote, CheckSchema, PageProjection, OwnsIdentity, Hosted;
    LocalReadsIgnoreRemote(w, after, conn, c, ch, ch.subject);
    NewPageIsUnclaimed(w, c, ch, minted);
    OwnedAfterRemote(w, after, c, Some(minted), ch.subject);
  }

  lemma StartCore(w: World, conn: Connection, c: Config, p: Proposal, cursor: Cursor, result: Receipt)
    requires Synced(w, conn, c, p, cursor, result) && cursor.stage == Start && cursor.index < |p.changes|
    ensures Sound(p, cursor) && TitleField(c.fields).Some? && Hosted(w, c) && |Slots(p, cursor, result)| == |p.changes|
    ensures Core(w, conn, c, p, cursor.index, Slots(p, cursor, result)) && Current(w, conn, c, p.changes[cursor.index], cursor, result)
    ensures Slots(p, cursor, result)[cursor.index] == SlotOf(p.changes[cursor.index])
  {
    hide GoodConfig, Settable, Before, Behind, CheckSchema, Hosted, Covered, Placed, AlignedRecord, Pending;
    assert TitleField(c.fields).Some? by {
      GoodTitled(w, conn, c, p, cursor.index, Slots(p, cursor, result));
    }
  }

  lemma GoodTitled(w: World, conn: Connection, c: Config, p: Proposal, k: nat, slots: seq<Slot>)
    requires Core(w, conn, c, p, k, slots)
    ensures TitleField(c.fields).Some?
  {
  }

  lemma NewSlot(p: Proposal, cursor: Cursor, minted: NotionId, page: Page)
    requires Sound(p, cursor) && cursor.index < |p.changes| && cursor.stage == Start && p.changes[cursor.index].kind == PageChange
    ensures var ch := p.changes[cursor.index];
      var next := cursor.(id := ch.id, subject := ch.subject, stage := Created);
      && CurrentSlot(ch, next, PageReceipt(true, minted, page)) == Slot(PageChange, Some(minted), ch.subject)
      && Sound(p, next)
      && |cursor.records| == cursor.index && next.index == cursor.index && next.records == cursor.records
  {
    hide AlignedRecord;
  }

  lemma NewPageLives(w: World, after: World, conn: Connection, c: Config, p: Proposal, k: nat, slots: seq<Slot>, minted: NotionId)
    requires Core(w, conn, c, p, k, slots) && k < |slots| && minted !in w.pages && minted in after.pages && after.resources == w.resources
    ensures Lives(after, Slot(PageChange, Some(minted), slots[k].subject))
    ensures !Lives(w, Slot(PageChange, Some(minted), None))
  {
    hide GoodConfig, Settable, Before, Behind, CheckSchema, Hosted, Covered;
    assert Lives(w, slots[k]);
  }

  lemma StartCreates(w: World, after: World, conn: Connection, c: Config, p: Proposal, cursor: Cursor, result: Receipt, next: Cursor, minted: NotionId)
    requires Synced(w, conn, c, p, cursor, result) && cursor.stage == Start && cursor.index < |p.changes|
    requires var ch := p.changes[cursor.index];
      && ch.id.None? && ch.kind == PageChange && minted !in w.pages
      && OnlyRemote(w, after, PageChange, minted) && minted in after.pages && PageProjection(after.pages[minted], c) == Ok(ch.desired)
    requires next == cursor.(id := p.changes[cursor.index].id, subject := p.changes[cursor.index].subject, stage := Created)
    ensures Synced(after, conn, c, p, next, PageReceipt(true, minted, after.pages[minted]))
  {
    var ch := p.changes[cursor.index];
    var later := PageReceipt(true, minted, after.pages[minted]);
    var slot, k := Slot(PageChange, Some(minted), ch.subject), cursor.index;
    assert SlotOf(ch) == Slot(PageChange, None, ch.subject);
    hide *;
    StartCore(w, conn, c, p, cursor, result);
    KeepsResources(w, after, PageChange, minted);
    NewSlot(p, cursor, minted, after.pages[minted]);
    var slots := Slots(p, cursor, result);
    NewPageLives(w, after, conn, c, p, k, slots, minted);
    CoreAfterRemote(w, after, conn, c, p, k, slots, slot);
    SlotsReplaced(p, cursor, result, next, later);
    CreatedCurrent(w, after, conn, c, ch, cursor, next, result, minted);
    SyncedFrom(after, conn, c, p, next, later);
  }

  lemma KeepsResources(w: World, after: World, kind: Kind, x: NotionId)
    requires OnlyRemote(w, after, kind, x)
    ensures after.resources == w.resources
  {
  }

  lemma NewPageIsUnclaimed(w: World, c: Config, ch: Change, minted: NotionId)
    requires Hosted(w, c) && minted !in w.pages
    requires OwnsIdentity(w, c, None, ch.subject)
    ensures OwnsIdentity(w, c, Some(minted), ch.subject)
  {
  }

  lemma StartQuiet(w: World, conn: Connection, c: Config, p: Proposal, cursor: Cursor, result: Receipt)
    requires Synced(w, conn, c, p, cursor, result) && cursor.stage == Start && cursor.index < |p.changes|
    ensures QuietTurn(w, conn, c, p, cursor, result, StartTurn(w, conn, c, p.changes[cursor.index], cursor))
  {
    var ch := p.changes[cursor.index];
    var write := ProviderWrite(w, c, ch);
    var turn := StartTurn(w, conn, c, ch, cursor);
    assert Settable(c, ch);
    WriteIsPossible(w, conn, c, ch);
    if write.value.None? {
      StartGoes(w, conn, c, p, cursor, result, turn.cursor);
    } else {
      var request, next := write.value.value, turn.outcome.next;
      forall minted | minted !in w.pages
        ensures Synced(Provided(w, request, minted), conn, c, p, next, ProviderReceipt(w, request, minted))
      {
        ProviderWriteLands(w, conn, c, ch, minted);
        if ch.id.Some? {
          StartUpdates(w, Provided(w, request, minted), conn, c, p, cursor, result, next, ProviderReceipt(w, request, minted));
        } else {
          StartCreates(w, Provided(w, request, minted), conn, c, p, cursor, result, next, minted);
        }
      }
    }
  }

  lemma WriteIsPossible(w: World, conn: Connection, c: Config, ch: Change)
    requires GoodConfig(c) && Settable(c, ch) && AsPreviewed(w, conn, c, ch) == Ok(true)
    ensures ProviderWrite(w, c, ch).Ok?
    ensures ProviderWrite(w, c, ch).value.None? ==> ch.id.Some? && ReadRemote(w, c, ch.kind, ch.id) == Ok(ch.desired)
    ensures ProviderWrite(w, c, ch).value.Some? ==> (ProviderWrite(w, c, ch).value.value.CreatePage? <==> ch.id.None?)
  {
    hide GoodConfig, PageProjection, CheckSchema, RemoteViewProjection, PagePatchOf, RemoteViewPatch, SettableView, Canonical, ReadLocal;
    match ch.kind {
      case PageChange => PageLands(w, c, ch, "");
      case SchemaChange => SchemaLands(w, c, ch, "");
      case ViewChange => ViewLands(w, c, ch, "");
    }
  }

  // ----- Created, Written -----

  lemma CreatedQuiet(w: World, conn: Connection, c: Config, p: Proposal, cursor: Cursor, result: Receipt)
    requires Synced(w, conn, c, p, cursor, result) && cursor.stage == Created && cursor.index < |p.changes|
    ensures QuietTurn(w, conn, c, p, cursor, result, CreatedTurn(c, cursor, result))
  {
    hide Core, ReadLocal, OwnsIdentity, PageProjection, Lives, AlignedRecord;
    var next := cursor.(id := Some(result.id), stage := Local);
    SlotsStay(p, cursor, result, next, result);
  }

  lemma WrittenQuiet(w: World, conn: Connection, c: Config, p: Proposal, cursor: Cursor, result: Receipt)
    requires Synced(w, conn, c, p, cursor, result) && cursor.stage == Written && cursor.index < |p.changes|
    ensures QuietTurn(w, conn, c, p, cursor, result, WrittenTurn(cursor, result))
  {
    hide Core, ReadLocal, ReadRemote, OwnsIdentity, Marked, Lives, AlignedRecord;
    var next := cursor.(subject := result.subject, stage := Verify);
    SlotsStay(p, cursor, result, next, result);
  }

  // ----- Local -----

  /** A page's row only claims that page; other writes claim none. */
  lemma ClaimsOnlyItsPage(w: World, after: World, s: Iri, c: Config, ch: Change, id: NotionId, x: NotionId)
    requires GoodConfig(c)
    requires OnlyLocal(w, after, s)
    requires ch.kind == PageChange ==> x != id && Marked(after, c, ch, Some(id), Some(s))
    requires ch.kind != PageChange ==> s in w.resources && OtherwiseAlike(Read(w, s), Read(after, s), c)
    ensures NoNewClaim(w, after, s, c, x)
  {
    if ch.kind == PageChange && SourceId(c, x) == SourceId(c, id) {
      SourceIdInjective(c, x, id);
    }
  }

  lemma OwnsAfterWrite(w: World, after: World, s: Iri, c: Config, ch: Change, id: NotionId, subject: Option<Iri>)
    requires OnlyLocal(w, after, s)
    requires subject.Some? ==> subject.value == s
    requires OwnsIdentity(w, c, Some(id), subject)
    requires TitleField(c.fields).Some? && ch.kind == PageChange && Marked(after, c, ch, Some(id), Some(s))
    ensures OwnsIdentity(after, c, Some(id), Some(s))
  {
    MatchesAfterLocal(w, after, s, c, c.identity, Id(id));
    MatchesAfterLocal(w, after, s, c, LocalId, SourceId(c, id));
  }

  /** What is known of the current change when its Atomic side is next. */
  lemma LocalFacts(w: World, conn: Connection, c: Config, p: Proposal, cursor: Cursor, result: Receipt)
    requires Synced(w, conn, c, p, cursor, result) && cursor.stage == Local && cursor.index < |p.changes|
    ensures Sound(p, cursor) && GoodConfig(c) && TitleField(c.fields).Some? && CheckSchema(w, c).Ok?
    ensures Core(w, conn, c, p, cursor.index, Slots(p, cursor, result))
    ensures var ch := p.changes[cursor.index];
      && Settable(c, ch) && cursor.id.Some? && cursor.subject == ch.subject && Untagged(c, ch.subject)
      && ReadRemote(w, c, ch.kind, cursor.id) == Ok(ch.desired) && ReadLocal(w, conn, c, ch, ch.subject).Ok?
      && (ch.kind == PageChange ==> OwnsIdentity(w, c, cursor.id, cursor.subject))
      && (ch.kind != PageChange ==> ch.subject.Some?)
      && |Slots(p, cursor, result)| == |p.changes| && Slots(p, cursor, result)[cursor.index] == Slot(ch.kind, cursor.id, cursor.subject)
      && Lives(w, Slot(ch.kind, cursor.id, cursor.subject))
  {
    var ch := p.changes[cursor.index];
    assert Settable(c, ch) && Slots(p, cursor, result)[cursor.index] == Slot(ch.kind, cursor.id, cursor.subject);
    assert Lives(w, Slots(p, cursor, result)[cursor.index]);
    hide GoodConfig, CheckSchema, Before, Behind, Covered, Hosted, OwnsIdentity, ReadLocal, ReadRemote, AlignedRecord;
  }

  lemma LocalCoreLands(w: World, after: World, conn: Connection, c: Config, p: Proposal, cursor: Cursor, result: Receipt, minted: Iri, s: Iri)
    requires Synced(w, conn, c, p, cursor, result) && cursor.stage == Local && cursor.index < |p.changes|
    requires minted !in w.resources && s == Target(cursor, minted) && OnlyLocal(w, after, s) && TitleField(c.fields).Some? && cursor.id.Some?
    requires var ch := p.changes[cursor.index];
      && (ch.kind == PageChange ==> Marked(after, c, ch, cursor.id, Some(s)))
      && (ch.kind != PageChange ==> OtherwiseAlike(Read(w, s), Read(after, s), c))
    ensures var ch := p.changes[cursor.index];
      Core(after, conn, c, p, cursor.index, Slots(p, cursor, result)[cursor.index := Slot(ch.kind, cursor.id, Some(s))])
  {
    var ch := p.changes[cursor.index];
    LocalFacts(w, conn, c, p, cursor, result);
    hide Synced, Core, GoodConfig, Settable, ReadLocal, ReadRemote, CheckSchema, OnlyLocal, OwnsIdentity, NoNewClaim, Marked, SlotAt;
    forall x | Some(x) != cursor.id || ch.kind != PageChange ensures NoNewClaim(w, after, s, c, x) {
      ClaimsOnlyItsPage(w, after, s, c, ch, cursor.id.value, x);
    }
    CoreAfterLocal(w, after, conn, c, p, cursor.index, Slots(p, cursor, result), Slot(ch.kind, cursor.id, Some(s)));
  }

  lemma WrittenCurrent(w: World, after: World, conn: Connection, c: Config, ch: Change, cursor: Cursor, s: Iri)
    requires TitleField(c.fields).Some? && OnlyLocal(w, after, s) && CheckSchema(w, c).Ok? && Untagged(c, ch.subject)
    requires cursor.subject == ch.subject && cursor.id.Some? && (cursor.subject.Some? ==> cursor.subject.value == s) && (cursor.subject.None? ==> s !in w.resources)
    requires ReadRemote(w, c, ch.kind, cursor.id) == Ok(ch.desired) && ReadLocal(after, conn, c, ch, Some(s)) == Ok(Some(ch.desired))
    requires ch.kind == PageChange ==> Marked(after, c, ch, cursor.id, Some(s)) && OwnsIdentity(w, c, cursor.id, cursor.subject) && InTable(Read(after, s), c)
    ensures Current(after, conn, c, ch, cursor.(stage := Written), AtomicReceipt(Some(s)))
  {
    hide OnlyLocal, CheckSchema, ReadRemote, ReadLocal, Marked, OwnsIdentity, InTable, IsTag;
    LocalFrame(w, after, s, c);
    if ch.kind == PageChange {
      OwnsAfterWrite(w, after, s, c, ch, cursor.id.value, cursor.subject);
    }
  }

  lemma WrittenSlot(ch: Change, cursor: Cursor, s: Iri)
    ensures CurrentSlot(ch, cursor.(stage := Written), AtomicReceipt(Some(s))) == Slot(ch.kind, cursor.id, Some(s))
  {
  }

  lemma SoundStage(p: Proposal, cursor: Cursor, stage: Stage)
    requires Sound(p, cursor) && cursor.index < |p.changes| && stage != Done
    ensures Sound(p, cursor.(stage := stage))
  {
    hide AlignedRecord;
  }

  lemma SyncedFrom(w: World, conn: Connection, c: Config, p: Proposal, cursor: Cursor, result: Receipt)
    requires Sound(p, cursor) && Core(w, conn, c, p, cursor.index, Slots(p, cursor, result)) && cursor.index < |p.changes|
    requires TitleField(c.fields).Some? && Current(w, conn, c, p.changes[cursor.index], cursor, result)
    ensures Synced(w, conn, c, p, cursor, result)
  {
    hide Current, Sound, AlignedRecord, Slots;
  }

  lemma LocalWrites(w: World, conn: Connection, c: Config, p: Proposal, cursor: Cursor, result: Receipt, minted: Iri)
    requires Synced(w, conn, c, p, cursor, result) && cursor.stage == Local && cursor.index < |p.changes|
    requires minted !in w.resources
    requires LocalPatch(w, conn, c, p.changes[cursor.index], cursor).Ok?
    ensures var intents := Intents(c, cursor, LocalPatch(w, conn, c, p.changes[cursor.index], cursor).value);
      Synced(AllApplied(w, intents, minted), conn, c, p, cursor.(stage := Written), AtomicReceiptOf(intents, minted))
  {
    var ch := p.changes[cursor.index];
    var patch := LocalPatch(w, conn, c, ch, cursor).value;
    var intents := Intents(c, cursor, patch);
    var after := AllApplied(w, intents, minted);
    var s, next, later := Target(cursor, minted), cursor.(stage := Written), AtomicReceiptOf(intents, minted);
    hide *;
    LocalFacts(w, conn, c, p, cursor, result);
    LocalWriteLands(w, conn, c, ch, cursor, minted);
    IntentsLeave(w, c, cursor, patch, minted);
    LocalCoreLands(w, after, conn, c, p, cursor, result, minted, s);
    WrittenCurrent(w, after, conn, c, ch, cursor, s);
    SlotsReplaced(p, cursor, result, next, later);
    WrittenSlot(ch, cursor, s);
    SoundStage(p, cursor, Written);
    SyncedFrom(after, conn, c, p, next, later);
  }

  lemma LocalGoes(w: World, conn: Connection, c: Config, p: Proposal, cursor: Cursor, result: Receipt)
    requires Synced(w, conn, c, p, cursor, result) && cursor.stage == Local && cursor.index < |p.changes|
    requires var ch := p.changes[cursor.index];
      ReadLocal(w, conn, c, ch, cursor.subject) == Ok(Some(ch.desired)) && (ch.kind == PageChange ==> Marked(w, c, ch, cursor.id, cursor.subject))
    ensures Synced(w, conn, c, p, cursor.(stage := Verify), result)
  {
    hide Core, ReadLocal, ReadRemote, OwnsIdentity, Marked, Lives, AlignedRecord;
    SyncedParts(w, conn, c, p, cursor, result);
    SlotsStay(p, cursor, result, cursor.(stage := Verify), result);
  }

  lemma LocalQuiet(w: World, conn: Connection, c: Config, p: Proposal, cursor: Cursor, result: Receipt)
    requires Synced(w, conn, c, p, cursor, result) && cursor.stage == Local && cursor.index < |p.changes|
    ensures QuietTurn(w, conn, c, p, cursor, result, LocalTurn(w, conn, c, p.changes[cursor.index], cursor))
  {
    hide Settable, ReadLocal, ReadRemote, LocalPatch, OwnsIdentity, Synced, Intents;
    SyncedParts(w, conn, c, p, cursor, result);
    var ch := p.changes[cursor.index];
    var here := ReadLocal(w, conn, c, ch, cursor.subject);
    LocalPatchPossible(w, conn, c, ch, cursor);
    if here.value == Some(ch.desired) && AlreadyWritten(w, c, ch, cursor) {
      LocalGoes(w, conn, c, p, cursor, result);
    } else {
      forall minted | minted !in w.resources
        ensures var intents := Intents(c, cursor, LocalPatch(w, conn, c, ch, cursor).value);
          Synced(AllApplied(w, intents, minted), conn, c, p, cursor.(stage := Written), AtomicReceiptOf(intents, minted))
      {
        LocalWrites(w, conn, c, p, cursor, result, minted);
      }
    }
  }

  // ----- Verify -----

  /** What is known of a change whose two sides are about to be compared. */
  lemma VerifyFacts(w: World, conn: Connection, c: Config, p: Proposal, cursor: Cursor, result: Receipt)
    requires Synced(w, conn, c, p, cursor, result) && cursor.stage == Verify && cursor.index < |p.changes|
    ensures Sound(p, cursor) && TitleField(c.fields).Some? && Core(w, conn, c, p, cursor.index, Slots(p, cursor, result))
    ensures Finished(w, conn, c, p.changes[cursor.index], cursor.id, cursor.subject)
    ensures CurrentSlot(p.changes[cursor.index], cursor, result) == Slot(p.changes[cursor.index].kind, cursor.id, cursor.subject)
  {
    hide GoodConfig, Settable, Before, Behind, CheckSchema, Hosted, Covered, Placed, AlignedRecord, Finished;
    assert TitleField(c.fields).Some? by {
      GoodTitled(w, conn, c, p, cursor.index, Slots(p, cursor, result));
    }
  }

  lemma VerifyContinues(w: World, conn: Connection, c: Config, ch: Change, cursor: Cursor)
    requires TitleField(c.fields).Some? && Finished(w, conn, c, ch, cursor.id, cursor.subject)
    ensures VerifyTurn(w, conn, c, ch, cursor)
      == Return(Continue(Cursor(cursor.index + 1, Start, None, None, cursor.records + [SyncRecord(ch.kind, cursor.id, cursor.subject, Some(ch.desired), ch.desired)])))
  {
    hide ReadLocal, ReadRemote, OwnsIdentity, Marked;
  }

  /** A quiet turn that moves on to the next change. */
  lemma QuietContinue(w: World, conn: Connection, c: Config, p: Proposal, cursor: Cursor, result: Receipt, next: Cursor)
    requires Sound(p, next) && next.stage == Start
    requires Core(w, conn, c, p, next.index, Slots(p, next, NoReceipt))
    requires next.index < |p.changes| ==> Pending(w, conn, c, p.changes[next.index])
    ensures QuietTurn(w, conn, c, p, cursor, result, Return(Continue(next)))
  {
    hide Core, Pending, AlignedRecord;
    if next.index < |p.changes| {
      GoodTitled(w, conn, c, p, next.index, Slots(p, next, NoReceipt));
    }
  }

  lemma GoodContinue(v: Visit, c: Config, p: Proposal, cursor: Cursor, next: Cursor)
    requires GoodTurn(v, c, p, cursor, Return(Continue(next)))
    ensures Sound(p, next)
  {
  }

  lemma VerifyQuiet(w: World, conn: Connection, c: Config, p: Proposal, cursor: Cursor, result: Receipt)
    requires Synced(w, conn, c, p, cursor, result) && cursor.stage == Verify && cursor.index < |p.changes|
    ensures QuietTurn(w, conn, c, p, cursor, result, VerifyTurn(w, conn, c, p.changes[cursor.index], cursor))
  {
    hide *;
    var ch, k := p.changes[cursor.index], cursor.index;
    var record := SyncRecord(ch.kind, cursor.id, cursor.subject, Some(ch.desired), ch.desired);
    var next := Cursor(k + 1, Start, None, None, cursor.records + [record]);
    VerifyFacts(w, conn, c, p, cursor, result);
    VerifyContinues(w, conn, c, ch, cursor);
    VerifyTurnGood(Visit(w, conn, result), c, p, cursor);
    GoodContinue(Visit(w, conn, result), c, p, cursor, next);
    SoundCounts(p, cursor);
    SlotsAdvance(p, cursor, result, next, record);
    CoreAdvances(w, conn, c, p, k, Slots(p, cursor, result));
    QuietContinue(w, conn, c, p, cursor, result, next);
  }

  lemma SoundCounts(p: Proposal, cursor: Cursor)
    requires Sound(p, cursor)
    ensures |cursor.records| == cursor.index
  {
  }

  lemma SlotsAdvance(p: Proposal, cursor: Cursor, result: Receipt, next: Cursor, record: SyncRecord)
    requires |cursor.records| == cursor.index < |p.changes| && cursor.stage == Verify
    requires next == Cursor(cursor.index + 1, Start, None, None, cursor.records + [record])
    requires Slot(record.kind, record.remote, record.local) == CurrentSlot(p.changes[cursor.index], cursor, result)
    ensures Slots(p, next, NoReceipt) == Slots(p, cursor, result)
    ensures CurrentSlot(p.changes[cursor.index], cursor, result) == Slots(p, cursor, result)[cursor.index]
  {
    forall i | 0 <= i < |p.changes| ensures SlotAt(p, next, NoReceipt, i) == SlotAt(p, cursor, result, i) {
      if i < cursor.index {
        assert next.records[i] == cursor.records[i];
      }
    }
  }

  lemma CoreAdvances(w: World, conn: Connection, c: Config, p: Proposal, k: nat, slots: seq<Slot>)
    requires k < |p.changes| && Core(w, conn, c, p, k, slots)
    requires Finished(w, conn, c, p.changes[k], slots[k].id, slots[k].subject)
    ensures Core(w, conn, c, p, k + 1, slots)
    ensures k + 1 < |p.changes| ==> Pending(w, conn, c, p.changes[k + 1])
  {
    hide GoodConfig, Settable, Hosted, Placed, CheckSchema, Finished, Pending;
  }

  // ----- The checkpoint -----

  /** Where the title has the same value in both homes, no baseline is consulted. */
  lemma BaselineFree(row: Row, c: Config, ch: Change, one: Option<Projection>, other: Option<Projection>)
    requires GoodFields(c) && TitleField(c.fields).Some?
    requires var title := TitleField(c.fields).value; Get(row, Name) == Get(row, title.property)
    ensures RowProjection(row, c, one) == RowProjection(row, c, other)
  {
    hide ValidateValue, SelectValue, DefaultFor, InTable, HasClass, Collect;
    forall i | 0 <= i < |c.fields|
      ensures ReadRowField(row, one)(c.fields[i]) == ReadRowField(row, other)(c.fields[i])
    {
      if c.fields[i].kind.Title? {
        TitleIs(c, i);
        assert TitleValue(row, c.fields[i], one) == TitleValue(row, c.fields[i], other);
      }
    }
    CollectSame(c.fields, ReadRowField(row, one), ReadRowField(row, other));
  }

  lemma {:induction false} CollectSame<V>(fields: seq<Field>, one: Field -> Result<Option<V>>, other: Field -> Result<Option<V>>)
    requires forall i :: 0 <= i < |fields| ==> one(fields[i]) == other(fields[i])
    ensures Collect(fields, one) == Collect(fields, other)
  {
    if fields != [] {
      CollectSame(fields[..|fields| - 1], one, other);
    }
  }

  lemma FinishedWhateverBaseline(w: World, conn: Connection, later: Connection, c: Config, ch: Change, id: Option<NotionId>, subject: Option<Iri>)
    requires GoodFields(c) && TitleField(c.fields).Some?
    requires Finished(w, conn, c, ch, id, subject)
    ensures Finished(w, later, c, ch, id, subject)
  {
    if ch.kind == PageChange {
      var row := Read(w, subject.value);
      var identity := Get(row, c.identity);
      var key := RecordKey(PageChange, if identity.Id? then identity.id else "");
      BaselineFree(row, c, ch, if identity.Id? then BaselineOf(conn, key) else None, if identity.Id? then BaselineOf(later, key) else None);
    }
  }

  lemma FinishedRecordsAcceptable(w: World, conn: Connection, c: Config, p: Proposal, cursor: Cursor, result: Receipt)
    requires Synced(w, conn, c, p, cursor, result) && cursor.index == |p.changes|
    ensures Acceptable(cursor.records)
  {
    assert TitleField(c.fields).Some?;
    hide GoodConfig, Settable, Hosted, Behind, CheckSchema, ReadLocal, ReadRemote, OwnsIdentity, Marked;
    var slots := Slots(p, cursor, result);
    forall i | 0 <= i < |cursor.records|
      ensures slots[i] == Slot(cursor.records[i].kind, cursor.records[i].remote, cursor.records[i].local)
      ensures cursor.records[i].remote.Some? && cursor.records[i].local.Some?
      ensures cursor.records[i].localProjection == Some(cursor.records[i].remoteProjection)
    {
      assert Finished(w, conn, c, p.changes[i], slots[i].id, slots[i].subject);
      assert AlignedRecord(p.changes[i], cursor.records[i]);
    }
    forall i, j | 0 <= i < j < |cursor.records|
      ensures !(cursor.records[i].kind == cursor.records[j].kind && cursor.records[i].remote == cursor.records[j].remote)
    {
      assert Apart(slots[i], slots[j]);
    }
  }

  /** The final state does not depend on which baselines are saved. */
  lemma SyncedWhateverBaseline(w: World, conn: Connection, later: Connection, c: Config, p: Proposal, cursor: Cursor, result: Receipt)
    requires Synced(w, conn, c, p, cursor, result) && cursor.index == |p.changes|
    ensures Synced(w, later, c, p, cursor.(stage := Done), NoReceipt)
  {
    var slots := Slots(p, cursor, result);
    SlotsOfTheEnd(p, cursor, result);
    BeforeWhateverBaseline(w, conn, later, c, p, slots);
    hide GoodConfig, Settable, Hosted, Placed, Before, CheckSchema, AlignedRecord;
    assert Core(w, later, c, p, cursor.index, slots);
  }

  lemma SlotsOfTheEnd(p: Proposal, cursor: Cursor, result: Receipt)
    requires |cursor.records| == cursor.index == |p.changes|
    ensures Slots(p, cursor.(stage := Done), NoReceipt) == Slots(p, cursor, result)
  {
  }

  lemma BeforeWhateverBaseline(w: World, conn: Connection, later: Connection, c: Config, p: Proposal, slots: seq<Slot>)
    requires GoodConfig(c) && |p.changes| == |slots|
    requires Before(w, conn, c, p, |slots|, slots)
    ensures Before(w, later, c, p, |slots|, slots)
  {
    forall i | 0 <= i < |slots| ensures Finished(w, later, c, p.changes[i], slots[i].id, slots[i].subject) {
      FinishedWhateverBaseline(w, conn, later, c, p.changes[i], slots[i].id, slots[i].subject);
    }
  }

  // ----- Whole invocations -----

  /** The turn of a change's stage is the one the stage lemmas speak of. */
  lemma StageTurn(w: World, conn: Connection, c: Config, p: Proposal, cursor: Cursor, result: Receipt)
    requires cursor.index < |p.changes|
    ensures TurnOf(w, conn, c, p, cursor, result)
      == match cursor.stage
         case Start => StartTurn(w, conn, c, p.changes[cursor.index], cursor)
         case Created => CreatedTurn(c, cursor, result)
         case Local => LocalTurn(w, conn, c, p.changes[cursor.index], cursor)
         case Written => WrittenTurn(cursor, result)
         case Verify => VerifyTurn(w, conn, c, p.changes[cursor.index], cursor)
         case Done => Return(Complete)
  {
    hide StartTurn, LocalTurn, CreatedTurn, WrittenTurn, VerifyTurn;
  }

  /** Past the last change: the checkpoint, or nothing more. */
  lemma EndTurnQuiet(w: World, conn: Connection, c: Config, p: Proposal, cursor: Cursor, result: Receipt)
    requires Synced(w, conn, c, p, cursor, result) && (cursor.stage == Done || cursor.index == |p.changes|)
    ensures QuietTurn(w, conn, c, p, cursor, result, TurnOf(w, conn, c, p, cursor, result))
  {
    SyncedSound(c, p, Session(w, conn, cursor, result, false));
    hide Synced, StartTurn, LocalTurn, CreatedTurn, WrittenTurn, VerifyTurn, ProviderKeeps, AtomicKeeps, Acceptable, AlignedRecord;
    if cursor.stage != Done {
      FinishedRecordsAcceptable(w, conn, c, p, cursor, result);
      SyncedWhateverBaseline(w, conn, Connection(conn.revision + 1, Recorded(conn.records, cursor.records)), c, p, cursor, result);
    }
  }

  lemma TurnQuiet(w: World, conn: Connection, c: Config, p: Proposal, cursor: Cursor, result: Receipt)
    requires Synced(w, conn, c, p, cursor, result)
    ensures QuietTurn(w, conn, c, p, cursor, result, TurnOf(w, conn, c, p, cursor, result))
  {
    hide *;
    SyncedIndex(w, conn, c, p, cursor, result);
    if cursor.stage == Done || cursor.index == |p.changes| {
      EndTurnQuiet(w, conn, c, p, cursor, result);
    } else {
      StageTurn(w, conn, c, p, cursor, result);
      match cursor.stage {
        case Start => StartQuiet(w, conn, c, p, cursor, result);
        case Created => CreatedQuiet(w, conn, c, p, cursor, result);
        case Local => LocalQuiet(w, conn, c, p, cursor, result);
        case Written => WrittenQuiet(w, conn, c, p, cursor, result);
        case Verify => VerifyQuiet(w, conn, c, p, cursor, result);
      }
    }
  }

  lemma SyncedIndex(w: World, conn: Connection, c: Config, p: Proposal, cursor: Cursor, result: Receipt)
    requires Synced(w, conn, c, p, cursor, result)
    ensures cursor.index <= |p.changes|
  {
  }

  lemma {:induction false} DriveQuiet(w: World, conn: Connection, c: Config, p: Proposal, cursor: Cursor, result: Receipt, budget: nat)
    requires Synced(w, conn, c, p, cursor, result)
    requires TurnsLeft(cursor.stage) <= budget
    ensures QuietOutcome(w, conn, c, p, cursor, Drive(Turner(w, conn, c, p, result), cursor, budget))
    decreases budget
  {
    hide TurnOf, Synced, ProviderKeeps, AtomicKeeps, Acceptable, Sound, GoodOutcome;
    SyncedSound(c, p, Session(w, conn, cursor, result, false));
    TurnQuiet(w, conn, c, p, cursor, result);
    TurnGood(Visit(w, conn, result), c, p, cursor);
    var turn := TurnOf(w, conn, c, p, cursor, result);
    if turn.Go? {
      DriveQuiet(w, conn, c, p, turn.cursor, result, budget - 1);
    }
  }

  /** Every page the connection remembers still exists, and page ids are not empty. */
  ghost predicate KnownPages(conn: Connection, w: World) {
    "" !in w.pages &&
    forall key :: key in conn.records && key.kind == PageChange ==> key.id in w.pages
  }

  /** The connection holds exactly what was agreed, under the recorded ids. */
  ghost predicate Saved(conn: Connection, p: Proposal, records: seq<SyncRecord>) {
    && |records| == |p.changes|
    && forall i :: 0 <= i < |records| ==>
         && records[i].remote.Some? && records[i].local.Some?
         && var key := RecordKey(p.changes[i].kind, records[i].remote.value);
            key in conn.records && conn.records[key] == Binding(records[i].local.value, Some(p.changes[i].desired))
  }

  /** The session is on its way: nothing was lost, nothing can fail. */
  ghost predicate OnTrack(c: Config, p: Proposal, s: Session) {
    && Approved(c, p)
    && Synced(s.w, s.conn, c, p, s.cursor, s.result)
    && KnownPages(s.conn, s.w)
    && (s.cursor.stage == Done ==> Saved(s.conn, p, s.cursor.records))
    && (s.complete ==> s.cursor.stage == Done)
  }

  lemma InvokeQuiet(c: Config, p: Proposal, s: Session)
    requires OnTrack(c, p, s)
    ensures QuietOutcome(s.w, s.conn, c, p, s.cursor, Invoke(s.w, s.conn, c, p, s.cursor, s.result))
  {
    assert AcceptedConfig(c);
    DriveQuiet(s.w, s.conn, c, p, s.cursor, s.result, BUDGET);
  }

  lemma {:induction false} AppliedKeepsPages(w: World, intents: seq<Intent>, minted: Iri)
    ensures AllApplied(w, intents, minted).pages == w.pages
    decreases intents
  {
    if intents != [] {
      AppliedKeepsPages(Applied(w, intents[0], minted), intents[1..], minted);
    }
  }

  lemma ProvidedKeepsPages(w: World, request: Request, minted: NotionId)
    ensures w.pages.Keys <= Provided(w, request, minted).pages.Keys <= w.pages.Keys + {minted}
  {
  }

  /** Record `i` names live objects and holds what was agreed. */
  ghost predicate RecordAligned(w: World, p: Proposal, cursor: Cursor, i: nat)
    requires i < |cursor.records| <= |p.changes|
  {
    var record := cursor.records[i];
    && record.kind == p.changes[i].kind
    && record.localProjection == Some(p.changes[i].desired)
    && (record.kind == PageChange && record.remote.Some? ==> record.remote.value in w.pages)
  }

  lemma CheckpointAligned(w: World, conn: Connection, c: Config, p: Proposal, cursor: Cursor, result: Receipt)
    requires Synced(w, conn, c, p, cursor, result) && cursor.index == |p.changes|
    ensures |cursor.records| == |p.changes|
    ensures forall i :: 0 <= i < |cursor.records| ==> RecordAligned(w, p, cursor, i)
  {
    hide Core, Current;
    SyncedPlaced(w, conn, c, p, cursor, result);
    forall i | 0 <= i < |cursor.records|
      ensures RecordAligned(w, p, cursor, i)
    {
      assert AlignedRecord(p.changes[i], cursor.records[i]);
      assert Lives(w, Slots(p, cursor, result)[i]);
    }
  }

  lemma CheckpointIsSaved(w: World, bindings: map<RecordKey, Binding>, revision: nat, p: Proposal, cursor: Cursor)
    requires Acceptable(cursor.records) && |cursor.records| == |p.changes|
    requires forall i :: 0 <= i < |cursor.records| ==> RecordAligned(w, p, cursor, i)
    ensures Saved(Connection(revision, Recorded(bindings, cursor.records)), p, cursor.records)
  {
    hide Recorded;
    RecordedAt(bindings, cursor.records);
    var after := Recorded(bindings, cursor.records);
    forall i | 0 <= i < |cursor.records|
      ensures var key := RecordKey(p.changes[i].kind, cursor.records[i].remote.value);
        key in after && after[key] == Binding(cursor.records[i].local.value, Some(p.changes[i].desired))
    {
      assert RecordAligned(w, p, cursor, i);
    }
  }

  lemma CheckpointKnowsPages(w: World, conn: Connection, revision: nat, p: Proposal, cursor: Cursor)
    requires Acceptable(cursor.records) && |cursor.records| == |p.changes| && KnownPages(conn, w)
    requires forall i :: 0 <= i < |cursor.records| ==> RecordAligned(w, p, cursor, i)
    ensures KnownPages(Connection(revision, Recorded(conn.records, cursor.records)), w)
  {
    hide Recorded;
    RecordedAt(conn.records, cursor.records);
    var after := Recorded(conn.records, cursor.records);
    forall key | key in after && key.kind == PageChange ensures key.id in w.pages {
      if key !in conn.records {
        var i :| 0 <= i < |cursor.records| && RecordKey(cursor.records[i].kind, cursor.records[i].remote.value) == key;
        assert RecordAligned(w, p, cursor, i);
      }
    }
  }

  lemma CheckpointSaves(w: World, conn: Connection, c: Config, p: Proposal, cursor: Cursor, result: Receipt)
    requires Synced(w, conn, c, p, cursor, result) && cursor.index == |p.changes|
    requires Acceptable(cursor.records) && KnownPages(conn, w)
    ensures var later := Connection(conn.revision + 1, Recorded(conn.records, cursor.records));
      Saved(later, p, cursor.records) && KnownPages(later, w)
  {
    hide *;
    CheckpointAligned(w, conn, c, p, cursor, result);
    CheckpointIsSaved(w, conn.records, conn.revision + 1, p, cursor);
    CheckpointKnowsPages(w, conn, conn.revision + 1, p, cursor);
  }

  lemma SyncedPlaced(w: World, conn: Connection, c: Config, p: Proposal, cursor: Cursor, result: Receipt)
    requires Synced(w, conn, c, p, cursor, result)
    ensures Placed(w, p, Slots(p, cursor, result))
  {
  }

  lemma StepStaysOnTrack(c: Config, p: Proposal, s: Session, t: Session)
    requires OnTrack(c, p, s) && QuietStep(c, p, s, t)
    ensures OnTrack(c, p, t)
    ensures t.complete || Rank(p, t.cursor) < Rank(p, s.cursor)
    ensures t.complete ==> Rank(p, t.cursor) == 0
    ensures Rank(p, t.cursor) >= 0
  {
    hide Invoke, Synced, Acceptable, Saved, KnownPages, AlignedRecord, BothAgree, Grounded;
    InvokeQuiet(c, p, s);
    SyncedSound(c, p, s);
    InvokeGood(Visit(s.w, s.conn, s.result), c, p, s.cursor);
    var outcome := Invoke(s.w, s.conn, c, p, s.cursor, s.result);
    if outcome.Emit? {
      CarriedStaysOnTrack(c, p, s, outcome, t);
    }
    SyncedSound(c, p, t);
  }

  lemma CarriedStaysOnTrack(c: Config, p: Proposal, s: Session, outcome: Outcome, t: Session)
    requires OnTrack(c, p, s) && Sound(p, s.cursor)
    requires outcome.Emit? && Carried(outcome.effect, s, outcome.next, t)
    requires QuietOutcome(s.w, s.conn, c, p, s.cursor, outcome)
    requires GoodOutcome(Visit(s.w, s.conn, s.result), c, p, s.cursor, outcome)
    ensures OnTrack(c, p, t) && t.cursor == outcome.next && !t.complete
  {
    hide Synced, Acceptable, Saved, Provided, AllApplied, ProviderReceipt, AtomicReceiptOf, AlignedRecord, BothAgree, Recorded;
    match outcome.effect {
      case External(_, request) =>
        var minted :| minted !in s.w.pages && minted != "" && t == Session(Provided(s.w, request, minted), s.conn, outcome.next, ProviderReceipt(s.w, request, minted), false);
        ProvidedKeepsPages(s.w, request, minted);
      case Atomic(_, intents) =>
        var minted :| minted !in s.w.resources && t == Session(AllApplied(s.w, intents, minted), s.conn, outcome.next, AtomicReceiptOf(intents, minted), false);
        AppliedKeepsPages(s.w, intents, minted);
      case Checkpoint(records) =>
        CheckpointSaves(s.w, s.conn, c, p, s.cursor, s.result);
    }
  }

  lemma SyncedSound(c: Config, p: Proposal, s: Session)
    requires Synced(s.w, s.conn, c, p, s.cursor, s.result)
    ensures Sound(p, s.cursor)
  {
  }

  // ----- Whole runs -----

  /** Everything a proposal and the stores must satisfy for the run to be certain. */
  ghost predicate Ready(w: World, conn: Connection, c: Config, p: Proposal) {
    && GoodConfig(c) && Approved(c, p)
    && CheckSchema(w, c).Ok?
    && Hosted(w, c)
    && (forall i :: 0 <= i < |p.changes| ==> Settable(c, p.changes[i]) && Pending(w, conn, c, p.changes[i]))
    && Placed(w, p, OpeningSlots(p))
    && Covered(w, c, OpeningSlots(p))
    && KnownPages(conn, w)
  }

  function OpeningSlots(p: Proposal): (slots: seq<Slot>) {
    seq(|p.changes|, i requires 0 <= i < |p.changes| => SlotOf(p.changes[i]))
  }

  function Opening(w: World, conn: Connection): Session {
    Session(w, conn, FIRST, NoReceipt, false)
  }

  lemma ReadyIsOnTrack(w: World, conn: Connection, c: Config, p: Proposal)
    requires Ready(w, conn, c, p)
    ensures OnTrack(c, p, Opening(w, conn))
  {
    hide Settable, Pending, Hosted, CheckSchema, GoodConfig, Placed, Covered;
    assert Slots(p, FIRST, NoReceipt) == OpeningSlots(p);
  }

  lemma {:induction false} RunStaysOnTrack(c: Config, p: Proposal, sessions: seq<Session>)
    requires QuietRun(c, p, sessions) && OnTrack(c, p, sessions[0]) && !sessions[0].complete
    ensures var last := sessions[|sessions| - 1];
      && OnTrack(c, p, last)
      && (if last.complete then |sessions| - 2 else |sessions| - 1) + Rank(p, last.cursor) <= Rank(p, sessions[0].cursor)
      && Rank(p, last.cursor) >= 0
  {
    hide QuietStep, Synced, OnTrack, Rank;
    if |sessions| > 1 {
      var n := |sessions| - 1;
      assert QuietRun(c, p, sessions[..n]);
      RunStaysOnTrack(c, p, sessions[..n]);
      assert QuietStep(c, p, sessions[n - 1], sessions[n]);
      StepNeedsIncomplete(c, p, sessions[n - 1], sessions[n]);
      StepStaysOnTrack(c, p, sessions[n - 1], sessions[n]);
    } else {
      RankNonNegative(c, p, sessions[0]);
    }
  }

  lemma StepNeedsIncomplete(c: Config, p: Proposal, s: Session, t: Session)
    requires QuietStep(c, p, s, t)
    ensures !s.complete
  {
  }

  lemma RankNonNegative(c: Config, p: Proposal, s: Session)
    requires OnTrack(c, p, s)
    ensures Rank(p, s.cursor) >= 0
  {
    SyncedSound(c, p, s);
  }

  lemma FinalState(c: Config, p: Proposal, last: Session)
    requires OnTrack(c, p, last) && last.complete
    ensures |last.cursor.records| == |p.changes|
    ensures forall i :: 0 <= i < |p.changes| ==>
      Finished(last.w, last.conn, c, p.changes[i], last.cursor.records[i].remote, last.cursor.records[i].local)
  {
    assert TitleField(c.fields).Some?;
    hide GoodConfig, Settable, Hosted, Placed, Behind, Finished, CheckSchema, AlignedRecord;
    var slots := Slots(p, last.cursor, last.result);
    forall i | 0 <= i < |p.changes|
      ensures Finished(last.w, last.conn, c, p.changes[i], last.cursor.records[i].remote, last.cursor.records[i].local)
    {
      assert Finished(last.w, last.conn, c, p.changes[i], slots[i].id, slots[i].subject);
    }
  }
}
