/** After a completed run the next preview is idle: no conflicts, nothing to
    write, and its run emits the checkpoint alone. */
module NotionSettled {
  import opened Wrappers
  import opened TextChunks
  import opened NotionModel
  import opened NotionRows
  import opened NotionViews
  import opened NotionSync
  import opened NotionSafety
  import opened NotionHost
  import opened NotionFrames
  import opened NotionConvergence
  import opened NotionQuiet
  import opened NotionRuns
  import opened NotionCompletion
  import opened NotionPreview
  import opened NotionReady
  import opened NotionOpening

  // ----- An idle change -----

  /** Both sides already show what is desired, and the row is marked. */
  ghost predicate Idle(w: World, conn: Connection, c: Config, ch: Change)
    requires TitleField(c.fields).Some?
  {
    && ch.local == Some(ch.desired) && ch.remote == Some(ch.desired)
    && Finished(w, conn, c, ch, ch.id, ch.subject)
  }

  lemma NothingToPatch(page: Page, c: Config, p: Projection)
    requires GoodConfig(c) && PageProjection(page, c) == Ok(p)
    ensures PagePatchOf(p, Some(p), c) == Ok(map[])
  {
    PageProjectionCanonical(page, c);
    var read := PatchPageField(p, Some(p));
    CollectedUnique(c.fields, read, map[]);
  }

  lemma NothingToRestyle(view: View, c: Config, p: Projection)
    requires RemoteViewProjection(view, c) == Ok(p)
    ensures RemoteViewPatch(p, view, c) == Ok(ViewPatch(None, None))
  {
  }

  lemma IdleWrite(w: World, conn: Connection, c: Config, ch: Change)
    requires GoodConfig(c) && Idle(w, conn, c, ch)
    ensures ProviderWrite(w, c, ch) == Ok(None)
  {
    match ch.kind {
      case PageChange => NothingToPatch(w.pages[ch.id.value], c, ch.desired);
      case SchemaChange =>
      case ViewChange => NothingToRestyle(w.views[ch.id.value], c, ch.desired);
    }
  }

  lemma IdleStart(w: World, conn: Connection, c: Config, ch: Change, cursor: Cursor)
    requires GoodConfig(c) && CheckSchema(w, c) == Ok(true) && Idle(w, conn, c, ch)
    ensures StartTurn(w, conn, c, ch, cursor) == Go(cursor.(id := ch.id, subject := ch.subject, stage := Local))
  {
    IdleWrite(w, conn, c, ch);
    hide ProviderWrite, CheckSchema, ReadLocal, ReadRemote, GoodConfig, OwnsIdentity, Marked;
  }

  lemma IdlePage(w: World, conn: Connection, c: Config, ch: Change)
    requires GoodConfig(c) && Idle(w, conn, c, ch) && ch.kind == PageChange
    ensures Settable(c, ch) && ch.id.Some? && OwnsIdentity(w, c, ch.id, ch.subject)
  {
    assert DistinctIds(c.fields);
    hide GoodConfig, PageProjection, PagePatchOf, Canonical, OwnsIdentity, ReadLocal, Marked;
    NothingToPatch(w.pages[ch.id.value], c, ch.desired);
    PageProjectionCanonical(w.pages[ch.id.value], c);
  }

  lemma IdlePatch(w: World, conn: Connection, c: Config, ch: Change, cursor: Cursor)
    requires GoodConfig(c) && Idle(w, conn, c, ch)
    requires cursor.id == ch.id && cursor.subject == ch.subject
    ensures LocalPatch(w, conn, c, ch, cursor).Ok?
  {
    match ch.kind {
      case PageChange =>
        IdlePage(w, conn, c, ch);
        hide Idle, LocalPatch, Settable, OwnsIdentity;
        PagePatchIs(w, conn, c, ch, cursor);
      case SchemaChange =>
      case ViewChange =>
        RemoteViewGood(w.views[ch.id.value], c);
        MappedHaveProperties(ch.desired["columns"].ids, c);
    }
  }

  lemma IdleLocal(w: World, conn: Connection, c: Config, ch: Change, cursor: Cursor)
    requires GoodConfig(c) && Idle(w, conn, c, ch)
    requires cursor.id == ch.id && cursor.subject == ch.subject && cursor.stage == Local
    ensures LocalTurn(w, conn, c, ch, cursor) == Go(cursor.(stage := Verify))
  {
    IdlePatch(w, conn, c, ch, cursor);
    hide LocalPatch, ReadLocal, ReadRemote, OwnsIdentity;
  }

  /** One invocation checks an idle change and moves on. */
  lemma IdleInvocation(w: World, conn: Connection, c: Config, p: Proposal, cursor: Cursor, result: Receipt)
    requires GoodConfig(c) && Approved(c, p) && CheckSchema(w, c) == Ok(true)
    requires cursor.index < |p.changes| && cursor.stage == Start && Idle(w, conn, c, p.changes[cursor.index])
    ensures var ch := p.changes[cursor.index];
      Invoke(w, conn, c, p, cursor, result)
        == Continue(Cursor(cursor.index + 1, Start, None, None, cursor.records + [SyncRecord(ch.kind, ch.id, ch.subject, Some(ch.desired), ch.desired)]))
  {
    hide AlreadyWritten, LocalPatch, ProviderWrite;
    var ch := p.changes[cursor.index];
    var second := cursor.(id := ch.id, subject := ch.subject, stage := Local);
    var third := second.(stage := Verify);
    assert AcceptedConfig(c);
    IdleStart(w, conn, c, ch, cursor);
    IdleLocal(w, conn, c, ch, second);
    hide StartTurn, LocalTurn, ReadLocal, ReadRemote, GoodConfig, CheckSchema, OwnsIdentity, Marked;
    var turn := Turner(w, conn, c, p, result);
    assert turn(cursor) == Go(second) && turn(second) == Go(third);
    assert turn(third).Return?;
    assert Drive(turn, cursor, 8) == Drive(turn, second, 7) == Drive(turn, third, 6) == turn(third).outcome;
  }

  /** Past the last change an invocation emits the checkpoint, and after that nothing. */
  lemma EndInvocation(w: World, conn: Connection, c: Config, p: Proposal, cursor: Cursor, result: Receipt)
    requires AcceptedConfig(c) && Approved(c, p)
    requires cursor.stage == Done || (cursor.stage == Start && cursor.index == |p.changes|)
    ensures Invoke(w, conn, c, p, cursor, result)
      == if cursor.stage == Done then Complete else Emit(Checkpoint(cursor.records), cursor.(stage := Done))
  {
    hide StartTurn, LocalTurn, VerifyTurn, CreatedTurn, WrittenTurn;
    assert Drive(Turner(w, conn, c, p, result), cursor, BUDGET) == Turner(w, conn, c, p, result)(cursor).outcome;
  }

  lemma GoodIsAccepted(c: Config)
    requires GoodConfig(c)
    ensures AcceptedConfig(c)
  {
  }

  ghost predicate AllIdle(w: World, conn: Connection, c: Config, p: Proposal)
    requires TitleField(c.fields).Some?
  {
    forall i :: 0 <= i < |p.changes| ==> Idle(w, conn, c, p.changes[i])
  }

  ghost predicate Resting(w: World, conn: Connection, s: Session, p: Proposal) {
    && s.w == w
    && (s.cursor.stage == Done || (s.cursor.stage == Start && s.cursor.index <= |p.changes| && s.conn == conn))
  }

  predicate WritesNothing(outcome: Outcome) {
    !outcome.Fail? && (outcome.Emit? ==> outcome.effect.Checkpoint?)
  }

  lemma RestingInvocation(w: World, conn: Connection, c: Config, p: Proposal, s: Session)
    requires GoodConfig(c) && Approved(c, p) && CheckSchema(w, c) == Ok(true) && AllIdle(w, conn, c, p)
    requires Resting(w, conn, s, p)
    ensures var outcome := Invoke(s.w, s.conn, c, p, s.cursor, s.result);
      && WritesNothing(outcome)
      && (outcome.Emit? ==> outcome.next.stage == Done)
      && (outcome.Continue? ==> s.cursor.stage == Start && outcome.next.stage == Start && outcome.next.index <= |p.changes|)
  {
    hide Invoke, GoodConfig, CheckSchema, Idle;
    GoodHasTitle(c);
    if s.cursor.stage == Start && s.cursor.index < |p.changes| {
      assert Idle(w, conn, c, p.changes[s.cursor.index]);
      IdleInvocation(w, conn, c, p, s.cursor, s.result);
    } else {
      GoodIsAccepted(c);
      EndInvocation(s.w, s.conn, c, p, s.cursor, s.result);
    }
  }

  /** The run of an idle proposal changes nothing on either side. */
  lemma {:induction false} IdleRunWritesNothing(w: World, conn: Connection, c: Config, p: Proposal, sessions: seq<Session>)
    requires GoodConfig(c) && Approved(c, p) && CheckSchema(w, c) == Ok(true) && AllIdle(w, conn, c, p)
    requires QuietRun(c, p, sessions) && sessions[0] == Opening(w, conn)
    ensures forall i :: 0 <= i < |sessions| ==>
      Resting(w, conn, sessions[i], p) &&
      WritesNothing(Invoke(sessions[i].w, sessions[i].conn, c, p, sessions[i].cursor, sessions[i].result))
  {
    hide GoodConfig, CheckSchema, AllIdle, Invoke, Recorded, Acceptable;
    var n := |sessions| - 1;
    if n > 0 {
      assert QuietRun(c, p, sessions[..n]);
      IdleRunWritesNothing(w, conn, c, p, sessions[..n]);
      assert sessions[..n][n - 1] == sessions[n - 1];
      assert QuietStep(c, p, sessions[n - 1], sessions[n]);
      RestingInvocation(w, conn, c, p, sessions[n - 1]);
      assert Resting(w, conn, sessions[n], p);
      assert forall i :: 0 <= i < n ==> sessions[..n][i] == sessions[i];
    }
    RestingInvocation(w, conn, c, p, sessions[n]);
  }

  // ----- The idle run ends -----

  /** The connection already holds what every change agrees on, each under its own id. */
  ghost predicate Remembered(conn: Connection, p: Proposal) {
    && (forall i :: 0 <= i < |p.changes| ==> SavedSlot(conn, SlotOf(p.changes[i]), p.changes[i].desired))
    && OwnKeys(p)
  }

  ghost predicate OwnKeys(p: Proposal) {
    forall i, j :: 0 <= i < j < |p.changes| ==> !(p.changes[i].kind == p.changes[j].kind && p.changes[i].id == p.changes[j].id)
  }

  function AgreedRecords(p: Proposal, n: nat): (records: seq<SyncRecord>)
    requires n <= |p.changes|
  {
    seq(n, i requires 0 <= i < n =>
      SyncRecord(p.changes[i].kind, p.changes[i].id, p.changes[i].subject, Some(p.changes[i].desired), p.changes[i].desired))
  }

  function NextRevision(conn: Connection): Connection {
    conn.(revision := conn.revision + 1)
  }

  lemma {:induction false} RecordedAgain(conn: Connection, p: Proposal, n: nat)
    requires n <= |p.changes| && Remembered(conn, p)
    ensures Acceptable(AgreedRecords(p, n))
    ensures Recorded(conn.records, AgreedRecords(p, n)) == conn.records
  {
    forall i | 0 <= i < n ensures SavedSlot(conn, SlotOf(p.changes[i]), p.changes[i].desired) {
    }
    if n > 0 {
      RecordedAgain(conn, p, n - 1);
      assert AgreedRecords(p, n)[..n - 1] == AgreedRecords(p, n - 1);
    }
  }

  /** Where the run of a remembered, idle proposal can be. */
  ghost predicate Rechecking(w: World, conn: Connection, p: Proposal, s: Session) {
    && s.w == w
    && match s.cursor.stage
       case Done => s.conn == NextRevision(conn)
       case Start => !s.complete && s.conn == conn && s.cursor.index <= |p.changes| && s.cursor.records == AgreedRecords(p, s.cursor.index)
       case _ => false
  }

  function ToRecheck(p: Proposal, s: Session): nat {
    if s.complete then 0
    else if s.cursor.stage == Done || s.cursor.index > |p.changes| then 1
    else |p.changes| - s.cursor.index + 2
  }

  lemma RecheckingInvocation(w: World, conn: Connection, c: Config, p: Proposal, s: Session)
    requires GoodConfig(c) && Approved(c, p) && CheckSchema(w, c) == Ok(true) && AllIdle(w, conn, c, p)
    requires Rechecking(w, conn, p, s)
    ensures Invoke(s.w, s.conn, c, p, s.cursor, s.result)
      == if s.cursor.stage == Done then Complete
         else if s.cursor.index == |p.changes| then Emit(Checkpoint(AgreedRecords(p, |p.changes|)), s.cursor.(stage := Done))
         else Continue(Cursor(s.cursor.index + 1, Start, None, None, AgreedRecords(p, s.cursor.index + 1)))
  {
    hide Invoke, GoodConfig, CheckSchema, Idle;
    GoodHasTitle(c);
    if s.cursor.stage == Start && s.cursor.index < |p.changes| {
      var i := s.cursor.index;
      assert Idle(w, conn, c, p.changes[i]);
      IdleInvocation(w, conn, c, p, s.cursor, s.result);
      assert AgreedRecords(p, i + 1) == AgreedRecords(p, i) + [AgreedRecords(p, i + 1)[i]];
    } else {
      GoodIsAccepted(c);
      EndInvocation(s.w, s.conn, c, p, s.cursor, s.result);
    }
  }

  lemma RecheckingStep(w: World, conn: Connection, c: Config, p: Proposal, s: Session, t: Session)
    requires GoodConfig(c) && Approved(c, p) && CheckSchema(w, c) == Ok(true) && AllIdle(w, conn, c, p) && Remembered(conn, p)
    requires Rechecking(w, conn, p, s) && QuietStep(c, p, s, t)
    ensures Rechecking(w, conn, p, t) && ToRecheck(p, t) < ToRecheck(p, s)
  {
    hide GoodConfig, CheckSchema, AllIdle, Invoke, Recorded, Acceptable, AgreedRecords, Remembered;
    RecheckingInvocation(w, conn, c, p, s);
    RecordedAgain(conn, p, |p.changes|);
  }

  lemma RecheckingGoesOn(w: World, conn: Connection, c: Config, p: Proposal, s: Session)
    requires GoodConfig(c) && Approved(c, p) && CheckSchema(w, c) == Ok(true) && AllIdle(w, conn, c, p) && Remembered(conn, p)
    requires Rechecking(w, conn, p, s)
    ensures Stuck(c, p, s) <==> s.complete
  {
    hide GoodConfig, CheckSchema, AllIdle, Invoke, Acceptable, AgreedRecords, Remembered, QuietStep;
    if s.complete {
      CompleteIsStuck(c, p, s);
    } else {
      RecheckingInvocation(w, conn, c, p, s);
      RecordedAgain(conn, p, |p.changes|);
      var t := GoesOn(c, p, s);
    }
  }

  lemma {:induction false} RunRechecks(w: World, conn: Connection, c: Config, p: Proposal, sessions: seq<Session>)
    requires GoodConfig(c) && Approved(c, p) && CheckSchema(w, c) == Ok(true) && AllIdle(w, conn, c, p) && Remembered(conn, p)
    requires QuietRun(c, p, sessions) && sessions[0] == Opening(w, conn)
    ensures Rechecking(w, conn, p, Last(sessions))
    ensures |sessions| + ToRecheck(p, Last(sessions)) <= |p.changes| + 3
  {
    hide GoodConfig, CheckSchema, AllIdle, Remembered, QuietStep;
    var n := |sessions| - 1;
    if n > 0 {
      hide Rechecking, ToRecheck;
      assert QuietRun(c, p, sessions[..n]);
      RunRechecks(w, conn, c, p, sessions[..n]);
      assert QuietStep(c, p, sessions[n - 1], sessions[n]);
      RecheckingStep(w, conn, c, p, sessions[n - 1], sessions[n]);
    }
  }

  /** The run of an idle proposal that the connection remembers goes to its end:
      one state per change and three more, the one checkpoint accepted, and
      afterwards only the connection's revision has moved. */
  lemma IdleRunCompletes(w: World, conn: Connection, c: Config, p: Proposal, sessions: seq<Session>) returns (whole: seq<Session>)
    requires GoodConfig(c) && Approved(c, p) && CheckSchema(w, c) == Ok(true) && AllIdle(w, conn, c, p) && Remembered(conn, p)
    requires QuietRun(c, p, sessions) && sessions[0] == Opening(w, conn)
    ensures var last := Last(sessions);
      && |sessions| <= |p.changes| + 3
      && (Stuck(c, p, last) <==> last.complete)
      && (Stuck(c, p, last) ==> last.w == w && last.conn == NextRevision(conn))
    ensures QuietRun(c, p, whole) && sessions <= whole && Last(whole).complete
  {
    assert sessions != [];
    hide GoodConfig, CheckSchema, AllIdle, Remembered, QuietStep, Rechecking, ToRecheck, QuietRun;
    RunRechecks(w, conn, c, p, sessions);
    forall s | Rechecking(w, conn, p, s) ensures Stuck(c, p, s) <==> s.complete {
      RecheckingGoesOn(w, conn, c, p, s);
    }
    forall s, t | Rechecking(w, conn, p, s) && QuietStep(c, p, s, t) ensures Rechecking(w, conn, p, t) && ToRecheck(p, t) < ToRecheck(p, s) {
      RecheckingStep(w, conn, c, p, s, t);
    }
    whole := Completes(c, p, s => Rechecking(w, conn, p, s), s => ToRecheck(p, s), sessions);
    RecheckedEnd(w, conn, p, Last(sessions));
  }

  lemma RecheckedEnd(w: World, conn: Connection, p: Proposal, s: Session)
    requires Rechecking(w, conn, p, s)
    ensures s.complete ==> s.w == w && s.conn == NextRevision(conn)
  {
  }

  // ----- The next preview -----

  /** The proposal has a change for every mapped field and every bound view. */
  ghost predicate CoversSetup(c: Config, p: Proposal) {
    && (forall i :: 0 <= i < |c.fields| ==> HasChange(p, Slot(SchemaChange, Some(c.fields[i].id), Some(c.fields[i].property))))
    && (forall i :: 0 <= i < |c.views| ==> HasChange(p, Slot(ViewChange, Some(c.views[i].id), Some(c.views[i].subject))))
  }

  ghost predicate HasChange(p: Proposal, slot: Slot) {
    exists j :: 0 <= j < |p.changes| && SlotOf(p.changes[j]) == slot
  }

  /** What a completed run leaves behind, without the cursor: each slot finished and saved. */
  ghost predicate Rested(w: World, conn: Connection, c: Config, p: Proposal, slots: seq<Slot>) {
    && GoodConfig(c)
    && |slots| == |p.changes|
    && CheckSchema(w, c).Ok?
    && Placed(w, p, slots)
    && Covered(w, c, slots)
    && KnownPages(conn, w)
    && Before(w, conn, c, p, |slots|, slots)
    && (forall i :: 0 <= i < |slots| ==> SavedSlot(conn, slots[i], p.changes[i].desired))
  }

  ghost predicate SavedSlot(conn: Connection, slot: Slot, desired: Projection) {
    && slot.id.Some? && slot.subject.Some?
    && RecordKey(slot.kind, slot.id.value) in conn.records
    && conn.records[RecordKey(slot.kind, slot.id.value)] == Binding(slot.subject.value, Some(desired))
  }

  lemma CompletedIsRested(c: Config, p: Proposal, s: Session)
    requires OnTrack(c, p, s) && s.complete
    ensures Rested(s.w, s.conn, c, p, Slots(p, s.cursor, s.result))
  {
    hide GoodConfig, CheckSchema, Placed, Covered, Before, Behind, Hosted, Settable, AlignedRecord;
    var slots := Slots(p, s.cursor, s.result);
    SyncedPlaced(s.w, s.conn, c, p, s.cursor, s.result);
    forall i | 0 <= i < |slots| ensures SavedSlot(s.conn, slots[i], p.changes[i].desired) {
      assert AlignedRecord(p.changes[i], s.cursor.records[i]);
      KindsAgree(p, s.cursor, i);
    }
  }

  lemma KindsAgree(p: Proposal, cursor: Cursor, i: nat)
    requires Sound(p, cursor) && i < cursor.index
    ensures cursor.records[i].kind == p.changes[i].kind
  {
    assert AlignedRecord(p.changes[i], cursor.records[i]);
  }

  /** A candidate of the next preview, seen against the finished change `j` it belongs to. */
  ghost predicate Matches(cand: Candidate, slot: Slot, desired: Projection) {
    CandSlot(cand) == slot && cand.local == Some(desired) && cand.remote == Some(desired)
  }

  ghost predicate SettledAll(cands: seq<Candidate>, p: Proposal, slots: seq<Slot>)
    requires |slots| == |p.changes|
  {
    forall i :: 0 <= i < |cands| ==> MatchesSome(cands[i], p, slots)
  }

  ghost predicate MatchesSome(cand: Candidate, p: Proposal, slots: seq<Slot>)
    requires |slots| == |p.changes|
  {
    exists j :: 0 <= j < |slots| && Matches(cand, slots[j], p.changes[j].desired)
  }

  lemma FieldSettles(w: World, conn: Connection, c: Config, p: Proposal, slots: seq<Slot>, f: Field)
    requires Rested(w, conn, c, p, slots)
    requires HasChange(p, Slot(SchemaChange, Some(f.id), Some(f.property)))
    ensures FieldCandidate(w, f).Ok?
    ensures MatchesSome(FieldCandidate(w, f).value, p, slots)
  {
    assert TitleField(c.fields).Some?;
    hide GoodConfig, CheckSchema, Covered, KnownPages;
    var j :| 0 <= j < |p.changes| && SlotOf(p.changes[j]) == Slot(SchemaChange, Some(f.id), Some(f.property));
    assert slots[j] == SlotOf(p.changes[j]);
    assert Finished(w, conn, c, p.changes[j], slots[j].id, slots[j].subject);
    assert Matches(FieldCandidate(w, f).value, slots[j], p.changes[j].desired);
  }

  lemma ViewSettles(w: World, conn: Connection, c: Config, p: Proposal, slots: seq<Slot>, v: ViewBinding)
    requires Rested(w, conn, c, p, slots)
    requires HasChange(p, Slot(ViewChange, Some(v.id), Some(v.subject)))
    ensures ViewCandidate(w, conn, c, v).Ok?
    ensures MatchesSome(ViewCandidate(w, conn, c, v).value, p, slots)
  {
    assert TitleField(c.fields).Some?;
    hide GoodConfig, CheckSchema, Covered, KnownPages, LocalViewProjection, RemoteViewProjection;
    var j :| 0 <= j < |p.changes| && SlotOf(p.changes[j]) == Slot(ViewChange, Some(v.id), Some(v.subject));
    assert slots[j] == SlotOf(p.changes[j]);
    assert Finished(w, conn, c, p.changes[j], slots[j].id, slots[j].subject);
    ReadLocalProbe(w, conn, c, p.changes[j], Probe(ViewChange, Some(v.id), Some(v.subject)), Some(v.subject));
    assert Matches(ViewCandidate(w, conn, c, v).value, slots[j], p.changes[j].desired);
  }

  /** The finished change a table row belongs to: the row names its page. */
  lemma RowSettles(w: World, conn: Connection, c: Config, p: Proposal, slots: seq<Slot>, s: Iri) returns (j: nat)
    requires Rested(w, conn, c, p, slots)
    requires s in w.resources && InTable(w.resources[s], c)
    ensures j < |slots| && slots[j].kind == PageChange && slots[j].subject == Some(s) && slots[j].id.Some?
    ensures RowIdentity(w, c, s) == Ok(Some(slots[j].id.value))
    ensures slots[j].id.value in w.pages
  {
    RestedParts(w, conn, c, p, slots);
    hide GoodConfig, CheckSchema, Finished, Before;
    assert HasRow(slots, s);
    j :| 0 <= j < |slots| && slots[j].kind == PageChange && slots[j].subject == Some(s);
    assert Lives(w, slots[j]);
    FinishedPage(w, conn, c, p.changes[j], slots[j].id.value, s);
  }

  /** Two rows never name the same page. */
  lemma RowsNameDistinctPages(w: World, conn: Connection, c: Config, p: Proposal, slots: seq<Slot>, s: Iri, t: Iri)
    requires Rested(w, conn, c, p, slots)
    requires s in w.resources && InTable(w.resources[s], c) && t in w.resources && InTable(w.resources[t], c)
    requires RowIdentity(w, c, s) == RowIdentity(w, c, t)
    ensures s == t
  {
    var i := RowSettles(w, conn, c, p, slots, s);
    var j := RowSettles(w, conn, c, p, slots, t);
    hide GoodConfig, CheckSchema, ReadLocal, ReadRemote, SavedSlot;
    assert Apart(slots[i], slots[j]) || i == j;
  }

  /** Every row names a page. */
  ghost predicate Named(w: World, c: Config, rows: seq<Iri>, byId: map<NotionId, Iri>) {
    forall s :: s in rows ==> exists x :: RowIdentity(w, c, s) == Ok(Some(x)) && x in byId && byId[x] == s
  }

  lemma {:induction false} RowPassSettles(w: World, conn: Connection, c: Config, p: Proposal, slots: seq<Slot>, rows: seq<Iri>)
    requires Rested(w, conn, c, p, slots)
    requires forall i, j :: 0 <= i < j < |rows| ==> rows[i] != rows[j]
    requires forall s :: s in rows ==> s in w.resources && InTable(w.resources[s], c)
    ensures RowPass(w, conn, c, rows).Ok?
    ensures RowPass(w, conn, c, rows).value.unsynced == []
    ensures Named(w, c, rows, RowPass(w, conn, c, rows).value.byId)
    ensures Indexed(w, c, rows, RowPass(w, conn, c, rows).value.byId)
  {
    hide Rested, RowIdentity, RowCandidate;
    if rows != [] {
      var n := |rows| - 1;
      var s := rows[n];
      assert rows == rows[..n] + [s] && s !in rows[..n];
      RowPassSettles(w, conn, c, p, slots, rows[..n]);
      var before := RowPass(w, conn, c, rows[..n]).value;
      var j := RowSettles(w, conn, c, p, slots, s);
      var x := slots[j].id.value;
      if x in before.byId {
        RowsNameDistinctPages(w, conn, c, p, slots, s, before.byId[x]);
      }
      assert x !in before.byId;
      var after := before.(byId := before.byId[x := s]);
      assert RowPass(w, conn, c, rows) == Ok(after);
      forall t | t in rows ensures exists y :: RowIdentity(w, c, t) == Ok(Some(y)) && y in after.byId && after.byId[y] == t {
        if t != s {
          var y :| RowIdentity(w, c, t) == Ok(Some(y)) && y in before.byId && before.byId[y] == t;
          assert after.byId[y] == t;
        } else {
          assert after.byId[x] == s;
        }
      }
    }
  }

  lemma PageSettles(w: World, conn: Connection, c: Config, p: Proposal, slots: seq<Slot>, rows: seq<Iri>, byId: map<NotionId, Iri>, x: NotionId)
    requires Rested(w, conn, c, p, slots)
    requires forall s :: s in rows <==> s in w.resources && InTable(w.resources[s], c) && HasClass(w.resources[s], c)
    requires Named(w, c, rows, byId)
    requires x in w.pages
    ensures PageCandidate(w, conn, c, x, SubjectOf(byId, x)).Ok?
    ensures MatchesSome(PageCandidate(w, conn, c, x, SubjectOf(byId, x)).value, p, slots)
  {
    assert TitleField(c.fields).Some?;
    hide GoodConfig, CheckSchema, SavedSlot, OwnsIdentity, ReadRow, ReadRemote, RowIdentity;
    assert HasPage(slots, x);
    var j :| 0 <= j < |slots| && slots[j].kind == PageChange && slots[j].id == Some(x);
    var s := slots[j].subject.value;
    FinishedPage(w, conn, c, p.changes[j], x, s);
    assert s in rows;
    var y :| RowIdentity(w, c, s) == Ok(Some(y)) && y in byId && byId[y] == s;
    assert SubjectOf(byId, x) == Some(s);
    assert Matches(PageCandidate(w, conn, c, x, Some(s)).value, slots[j], p.changes[j].desired);
  }

  lemma FinishedPage(w: World, conn: Connection, c: Config, ch: Change, x: NotionId, s: Iri)
    requires TitleField(c.fields).Some? && ch.kind == PageChange && x != ""
    requires Finished(w, conn, c, ch, Some(x), Some(s))
    ensures ReadRow(w, conn, c, s) == Ok(ch.desired) && ReadRemote(w, c, PageChange, Some(x)) == Ok(ch.desired)
    ensures s in w.resources && InTable(w.resources[s], c) && HasClass(w.resources[s], c)
    ensures RowIdentity(w, c, s) == Ok(Some(x))
  {
  }

  lemma FieldPassSettles(w: World, conn: Connection, c: Config, p: Proposal, slots: seq<Slot>, fields: seq<Field>)
    requires Rested(w, conn, c, p, slots)
    requires forall i :: 0 <= i < |fields| ==> HasChange(p, Slot(SchemaChange, Some(fields[i].id), Some(fields[i].property)))
    ensures FieldPass(w, fields).Ok? && SettledAll(FieldPass(w, fields).value, p, slots)
  {
    hide Rested, FieldCandidate, HasChange, Matches;
    if fields != [] {
      FieldPassSettles(w, conn, c, p, slots, fields[..|fields| - 1]);
      FieldSettles(w, conn, c, p, slots, fields[|fields| - 1]);
    }
  }

  lemma ViewPassSettles(w: World, conn: Connection, c: Config, p: Proposal, slots: seq<Slot>, views: seq<ViewBinding>)
    requires Rested(w, conn, c, p, slots)
    requires forall i :: 0 <= i < |views| ==> HasChange(p, Slot(ViewChange, Some(views[i].id), Some(views[i].subject)))
    ensures ViewPass(w, conn, c, views).Ok? && SettledAll(ViewPass(w, conn, c, views).value, p, slots)
  {
    hide Rested, ViewCandidate, HasChange, Matches;
    if views != [] {
      ViewPassSettles(w, conn, c, p, slots, views[..|views| - 1]);
      ViewSettles(w, conn, c, p, slots, views[|views| - 1]);
    }
  }

  lemma PagePassSettles(w: World, conn: Connection, c: Config, p: Proposal, slots: seq<Slot>, rows: seq<Iri>, byId: map<NotionId, Iri>, pages: seq<NotionId>)
    requires Rested(w, conn, c, p, slots)
    requires forall s :: s in rows <==> s in w.resources && InTable(w.resources[s], c) && HasClass(w.resources[s], c)
    requires Named(w, c, rows, byId)
    requires forall i :: 0 <= i < |pages| ==> pages[i] in w.pages
    requires forall i, j :: 0 <= i < j < |pages| ==> pages[i] != pages[j]
    ensures PagePass(w, conn, c, byId, pages).Ok? && SettledAll(PagePass(w, conn, c, byId, pages).value, p, slots)
  {
    hide Rested, PageCandidate, Matches, Named;
    if pages != [] {
      PagePassSettles(w, conn, c, p, slots, rows, byId, pages[..|pages| - 1]);
      PageSettles(w, conn, c, p, slots, rows, byId, pages[|pages| - 1]);
    }
  }

  lemma SettledConcat(a: seq<Candidate>, b: seq<Candidate>, p: Proposal, slots: seq<Slot>)
    requires |slots| == |p.changes|
    requires SettledAll(a, p, slots) && SettledAll(b, p, slots)
    ensures SettledAll(a + b, p, slots)
  {
    hide MatchesSome;
  }

  lemma CandidatesSettle(w: World, conn: Connection, c: Config, p: Proposal, slots: seq<Slot>, listing: Listing)
    requires Rested(w, conn, c, p, slots) && CoversSetup(c, p)
    requires Lists(w, conn, c, listing) && forall i, j :: 0 <= i < j < |listing.pages| ==> listing.pages[i] != listing.pages[j]
    ensures Candidates(w, conn, c, listing).Ok? && SettledAll(Candidates(w, conn, c, listing).value, p, slots)
    ensures forall s :: s in listing.rows ==> RowIdentity(w, c, s).Ok? && RowIdentity(w, c, s).value.Some? && RowIdentity(w, c, s).value.value in w.pages
  {
    hide Rested, HasChange, FieldPass, ViewPass, RowPass, PagePass, RowIdentity, Matches;
    FieldPassSettles(w, conn, c, p, slots, c.fields);
    ViewPassSettles(w, conn, c, p, slots, c.views);
    RowPassSettles(w, conn, c, p, slots, listing.rows);
    PagePassSettles(w, conn, c, p, slots, listing.rows, RowPass(w, conn, c, listing.rows).value.byId, listing.pages);
    var r := RowPass(w, conn, c, listing.rows).value;
    var f, v, g := FieldPass(w, c.fields).value, ViewPass(w, conn, c, c.views).value, PagePass(w, conn, c, r.byId, listing.pages).value;
    RestedParts(w, conn, c, p, slots);
    SettledConcat(f, v, p, slots);
    SettledConcat(f + v, g, p, slots);
    assert f + v + r.unsynced + g == f + v + g;
    forall s | s in listing.rows
      ensures RowIdentity(w, c, s).Ok? && RowIdentity(w, c, s).value.Some? && RowIdentity(w, c, s).value.value in w.pages
    {
      var j := RowSettles(w, conn, c, p, slots, s);
    }
  }

  lemma {:induction false} NothingLost(w: World, c: Config, rows: seq<Iri>, keys: seq<RecordKey>, pages: seq<NotionId>)
    ensures (forall s :: s in rows ==> RowIdentity(w, c, s).Ok? && RowIdentity(w, c, s).value.Some? && RowIdentity(w, c, s).value.value in pages)
      ==> LostRows(w, c, rows, pages) == []
    ensures (forall key :: key in keys && key.kind == PageChange ==> key.id in pages) ==> LostPages(keys, pages) == []
    decreases |rows| + |keys|
  {
    hide RowIdentity;
    if rows != [] {
      assert rows == rows[..|rows| - 1] + [rows[|rows| - 1]];
      NothingLost(w, c, rows[..|rows| - 1], keys, pages);
    } else if keys != [] {
      assert keys == keys[..|keys| - 1] + [keys[|keys| - 1]];
      NothingLost(w, c, rows, keys[..|keys| - 1], pages);
    }
  }

  lemma MatchedIsClean(conn: Connection, cand: Candidate, slot: Slot, desired: Projection)
    requires Matches(cand, slot, desired) && SavedSlot(conn, slot, desired)
    ensures Clean(conn, cand) && ChangeOf(conn, cand) == Change(cand.kind, cand.id, cand.subject, Some(desired), Some(desired), desired)
  {
    assert DecisionOn(conn, cand).remote == map[];
    assert Overlaid(desired, map[]) == desired;
  }

  lemma {:induction false} AddedClean(conn: Connection, start: Proposal, cands: seq<Candidate>)
    requires forall i :: 0 <= i < |cands| ==> Clean(conn, cands[i])
    ensures var p := AddedAll(conn, start, cands);
      && p.conflicts == start.conflicts && p.dataSource == start.dataSource
      && |p.changes| == |start.changes| + |cands|
      && forall i :: 0 <= i < |cands| ==> p.changes[|start.changes| + i] == ChangeOf(conn, cands[i])
  {
    hide DecisionOn, Rebound, ChangeFrom;
    if cands != [] {
      AddedClean(conn, start, cands[..|cands| - 1]);
    }
  }

  lemma IdleFromMatch(w: World, conn: Connection, c: Config, cand: Candidate, ch: Change, slot: Slot, done: Change)
    requires TitleField(c.fields).Some?
    requires Matches(cand, slot, done.desired) && slot.kind == done.kind
    requires slot.kind != PageChange ==> slot == SlotOf(done)
    requires Finished(w, conn, c, done, slot.id, slot.subject)
    requires ch == Change(cand.kind, cand.id, cand.subject, Some(done.desired), Some(done.desired), done.desired)
    ensures Idle(w, conn, c, ch)
  {
  }

  /** The candidate belongs to a finished change, and both sides show what that one desired. */
  ghost predicate Carries(cand: Candidate, ch: Change, p: Proposal, slots: seq<Slot>)
    requires |slots| == |p.changes|
  {
    exists j :: 0 <= j < |slots| && Matches(cand, slots[j], p.changes[j].desired)
      && ch == Change(cand.kind, cand.id, cand.subject, Some(p.changes[j].desired), Some(p.changes[j].desired), p.changes[j].desired)
  }

  lemma NextChanges(w: World, conn: Connection, c: Config, p: Proposal, slots: seq<Slot>, listing: Listing)
    requires Rested(w, conn, c, p, slots) && CoversSetup(c, p)
    requires Lists(w, conn, c, listing) && forall i, j :: 0 <= i < j < |listing.pages| ==> listing.pages[i] != listing.pages[j]
    ensures Candidates(w, conn, c, listing).Ok? && PreviewOf(w, conn, c, listing).Ok?
    ensures var cands, next := Candidates(w, conn, c, listing).value, PreviewOf(w, conn, c, listing).value;
      && Approved(c, next)
      && |next.changes| == |cands| && |slots| == |p.changes|
      && forall i :: 0 <= i < |cands| ==> Carries(cands[i], next.changes[i], p, slots)
  {
    hide Rested, HasChange, Candidates, RowIdentity, Matches, CheckSchema, GoodConfig, Idle, SavedSlot, Finished, ChangeOf, Clean, AddedAll, LostRows, LostPages, CoversSetup;
    RestedParts(w, conn, c, p, slots);
    CandidatesSettle(w, conn, c, p, slots, listing);
    var cands := Candidates(w, conn, c, listing).value;
    var start := Proposal(c.dataSource, [], []);
    forall i | 0 <= i < |cands| ensures Clean(conn, cands[i]) && Carries(cands[i], ChangeOf(conn, cands[i]), p, slots) {
      assert MatchesSome(cands[i], p, slots);
      var j :| 0 <= j < |slots| && Matches(cands[i], slots[j], p.changes[j].desired);
      MatchedIsClean(conn, cands[i], slots[j], p.changes[j].desired);
    }
    AddedClean(conn, start, cands);
    NothingLost(w, c, listing.rows, listing.keys, listing.pages);
    var next := PreviewOf(w, conn, c, listing).value;
    var added := AddedAll(conn, start, cands);
    assert next == added.(conflicts := [] + [] + []);
    forall i | 0 <= i < |cands| ensures next.changes[i] == ChangeOf(conn, cands[i]) {
      assert next.changes[i] == added.changes[|start.changes| + i];
    }
  }

  /** The preview that follows a completed run, whatever order things are listed
      in: no conflicts, and every change idle. */
  lemma NextPreviewIsIdle(w: World, conn: Connection, c: Config, p: Proposal, slots: seq<Slot>, listing: Listing)
    requires Rested(w, conn, c, p, slots) && CoversSetup(c, p)
    requires Lists(w, conn, c, listing) && forall i, j :: 0 <= i < j < |listing.pages| ==> listing.pages[i] != listing.pages[j]
    ensures PreviewOf(w, conn, c, listing).Ok?
    ensures var next := PreviewOf(w, conn, c, listing).value;
      Approved(c, next) && AllIdle(w, conn, c, next)
  {
    hide Rested, PreviewOf, Candidates, Matches, CheckSchema, GoodConfig, Idle, SavedSlot, Finished, CoversSetup, Lists;
    RestedParts(w, conn, c, p, slots);
    NextChanges(w, conn, c, p, slots, listing);
    var cands, next := Candidates(w, conn, c, listing).value, PreviewOf(w, conn, c, listing).value;
    forall i | 0 <= i < |next.changes| ensures Idle(w, conn, c, next.changes[i]) {
      assert Carries(cands[i], next.changes[i], p, slots);
      var j :| 0 <= j < |slots| && Matches(cands[i], slots[j], p.changes[j].desired)
        && next.changes[i] == Change(cands[i].kind, cands[i].id, cands[i].subject, Some(p.changes[j].desired), Some(p.changes[j].desired), p.changes[j].desired);
      IdleFromMatch(w, conn, c, cands[i], next.changes[i], slots[j], p.changes[j]);
    }
  }

  /** And the connection already holds every one of those changes. */
  lemma NextPreviewIsRemembered(w: World, conn: Connection, c: Config, p: Proposal, slots: seq<Slot>, listing: Listing)
    requires Rested(w, conn, c, p, slots) && CoversSetup(c, p)
    requires Lists(w, conn, c, listing) && forall i, j :: 0 <= i < j < |listing.pages| ==> listing.pages[i] != listing.pages[j]
    requires forall i, j :: 0 <= i < j < |c.views| ==> c.views[i].id != c.views[j].id
    ensures PreviewOf(w, conn, c, listing).Ok?
    ensures Remembered(conn, PreviewOf(w, conn, c, listing).value)
  {
    hide Rested, PreviewOf, Candidates, CheckSchema, GoodConfig, Idle, SavedSlot, Finished, CoversSetup, Lists;
    RestedParts(w, conn, c, p, slots);
    NextChanges(w, conn, c, p, slots, listing);
    CandidatesOwnKeys(w, conn, c, p, slots, listing);
    var cands, next := Candidates(w, conn, c, listing).value, PreviewOf(w, conn, c, listing).value;
    forall i | 0 <= i < |next.changes|
      ensures SavedSlot(conn, SlotOf(next.changes[i]), next.changes[i].desired)
      ensures SlotOf(next.changes[i]) == CandSlot(cands[i])
    {
      assert Carries(cands[i], next.changes[i], p, slots);
    }
    forall i, j | 0 <= i < j < |next.changes|
      ensures !(next.changes[i].kind == next.changes[j].kind && next.changes[i].id == next.changes[j].id)
    {
      assert CandSlot(cands[i]) == SlotOf(next.changes[i]) && CandSlot(cands[j]) == SlotOf(next.changes[j]);
    }
  }

  ghost predicate OtherKeys(a: Candidate, b: Candidate) {
    !(a.kind == b.kind && a.id == b.id)
  }

  /** Each candidate has the kind of its pass and the id it was made for. */
  ghost predicate Keyed(cands: seq<Candidate>, kind: Kind, ids: seq<NotionId>) {
    && |cands| == |ids|
    && (forall i :: 0 <= i < |cands| ==> cands[i].kind == kind && cands[i].id == Some(ids[i]))
    && (forall i, j :: 0 <= i < j < |ids| ==> ids[i] != ids[j])
  }

  lemma KeyedApart(f: seq<Candidate>, v: seq<Candidate>, g: seq<Candidate>, fields: seq<NotionId>, views: seq<NotionId>, pages: seq<NotionId>)
    requires Keyed(f, SchemaChange, fields) && Keyed(v, ViewChange, views) && Keyed(g, PageChange, pages)
    ensures var cands := f + v + g;
      forall i, j :: 0 <= i < j < |cands| ==> OtherKeys(cands[i], cands[j])
  {
    var cands := f + v + g;
    forall i, j | 0 <= i < j < |cands| ensures OtherKeys(cands[i], cands[j]) {
      if j < |f| {
        assert fields[i] != fields[j];
      } else if |f| <= i && j < |f| + |v| {
        assert views[i - |f|] != views[j - |f|];
      } else if |f| + |v| <= i {
        assert pages[i - |f| - |v|] != pages[j - |f| - |v|];
      }
    }
  }

  lemma FieldsKeyed(w: World, c: Config)
    requires AcceptedConfig(c) && FieldPass(w, c.fields).Ok?
    ensures Keyed(FieldPass(w, c.fields).value, SchemaChange, seq(|c.fields|, i requires 0 <= i < |c.fields| => c.fields[i].id))
  {
    hide FieldPass, FieldCandidate;
    FieldPassAt(w, c.fields);
    forall i | 0 <= i < |c.fields|
      ensures FieldPass(w, c.fields).value[i].kind == SchemaChange && FieldPass(w, c.fields).value[i].id == Some(c.fields[i].id)
    {
      FieldKey(w, c.fields[i]);
    }
  }

  lemma ViewsKeyed(w: World, conn: Connection, c: Config)
    requires forall i, j :: 0 <= i < j < |c.views| ==> c.views[i].id != c.views[j].id
    requires ViewPass(w, conn, c, c.views).Ok?
    ensures Keyed(ViewPass(w, conn, c, c.views).value, ViewChange, seq(|c.views|, i requires 0 <= i < |c.views| => c.views[i].id))
  {
    hide ViewPass, ViewCandidate;
    ViewPassAt(w, conn, c, c.views);
    forall i | 0 <= i < |c.views|
      ensures ViewPass(w, conn, c, c.views).value[i].kind == ViewChange && ViewPass(w, conn, c, c.views).value[i].id == Some(c.views[i].id)
    {
      ViewKey(w, conn, c, c.views[i]);
    }
  }

  lemma PagesKeyed(w: World, conn: Connection, c: Config, byId: map<NotionId, Iri>, pages: seq<NotionId>)
    requires PagePass(w, conn, c, byId, pages).Ok?
    ensures Keyed(PagePass(w, conn, c, byId, pages).value, PageChange, pages)
  {
    hide PagePass, PageCandidate;
    PagePassAt(w, conn, c, byId, pages);
    forall i | 0 <= i < |pages|
      ensures PagePass(w, conn, c, byId, pages).value[i].kind == PageChange && PagePass(w, conn, c, byId, pages).value[i].id == Some(pages[i])
    {
      PageKey(w, conn, c, pages[i], SubjectOf(byId, pages[i]));
    }
  }

  lemma CandidatesOwnKeys(w: World, conn: Connection, c: Config, p: Proposal, slots: seq<Slot>, listing: Listing)
    requires Rested(w, conn, c, p, slots) && CoversSetup(c, p)
    requires Lists(w, conn, c, listing) && forall i, j :: 0 <= i < j < |listing.pages| ==> listing.pages[i] != listing.pages[j]
    requires forall i, j :: 0 <= i < j < |c.views| ==> c.views[i].id != c.views[j].id
    ensures Candidates(w, conn, c, listing).Ok?
    ensures var cands := Candidates(w, conn, c, listing).value;
      forall i, j :: 0 <= i < j < |cands| ==> OtherKeys(cands[i], cands[j])
  {
    hide Rested, CoversSetup, FieldPass, ViewPass, RowPass, PagePass, Keyed, OtherKeys, Indexed, Named, SettledAll, GoodConfig, AcceptedConfig;
    CandidatesSettle(w, conn, c, p, slots, listing);
    RestedParts(w, conn, c, p, slots);
    RowPassSettles(w, conn, c, p, slots, listing.rows);
    GoodIsAccepted(c);
    var byId := RowPass(w, conn, c, listing.rows).value.byId;
    FieldsKeyed(w, c);
    ViewsKeyed(w, conn, c);
    PagesKeyed(w, conn, c, byId, listing.pages);
    var f, v, g := FieldPass(w, c.fields).value, ViewPass(w, conn, c, c.views).value, PagePass(w, conn, c, byId, listing.pages).value;
    KeyedApart(f, v, g, seq(|c.fields|, i requires 0 <= i < |c.fields| => c.fields[i].id),
               seq(|c.views|, i requires 0 <= i < |c.views| => c.views[i].id), listing.pages);
    assert f + v + [] + g == f + v + g;
  }

  lemma FieldKey(w: World, f: Field)
    requires FieldCandidate(w, f).Ok?
    ensures FieldCandidate(w, f).value.kind == SchemaChange && FieldCandidate(w, f).value.id == Some(f.id)
  {
  }

  lemma ViewKey(w: World, conn: Connection, c: Config, v: ViewBinding)
    requires ViewCandidate(w, conn, c, v).Ok?
    ensures ViewCandidate(w, conn, c, v).value.kind == ViewChange && ViewCandidate(w, conn, c, v).value.id == Some(v.id)
  {
  }

  lemma PageKey(w: World, conn: Connection, c: Config, id: NotionId, subject: Option<Iri>)
    requires PageCandidate(w, conn, c, id, subject).Ok?
    ensures PageCandidate(w, conn, c, id, subject).value.kind == PageChange && PageCandidate(w, conn, c, id, subject).value.id == Some(id)
  {
  }

  lemma RestedParts(w: World, conn: Connection, c: Config, p: Proposal, slots: seq<Slot>)
    requires Rested(w, conn, c, p, slots)
    ensures GoodConfig(c) && TitleField(c.fields).Some? && CheckSchema(w, c).Ok? && KnownPages(conn, w)
    ensures |slots| == |p.changes|
    ensures forall i :: 0 <= i < |slots| ==>
      && slots[i].kind == p.changes[i].kind
      && (slots[i].kind != PageChange ==> slots[i] == SlotOf(p.changes[i]))
      && Finished(w, conn, c, p.changes[i], slots[i].id, slots[i].subject)
      && SavedSlot(conn, slots[i], p.changes[i].desired)
  {
    hide GoodConfig, CheckSchema, Finished, SavedSlot;
    assert TitleField(c.fields).Some? by {
      GoodHasTitle(c);
    }
  }

  lemma GoodHasTitle(c: Config)
    requires GoodConfig(c)
    ensures TitleField(c.fields).Some?
  {
  }

  lemma PreviewCoversSetup(w: World, conn: Connection, c: Config, listing: Listing, p: Proposal)
    requires CheckSchema(w, c).Ok? && TidyResources(w, c)
    requires PreviewOf(w, conn, c, listing) == Ok(p) && p.conflicts == []
    ensures CoversSetup(c, p)
  {
    hide CheckSchema, FieldPass, ViewPass, RowPass, PagePass, TidyResources, CandPending, Clean, ChangeOf, DecisionOn, AddedAll, LostRows, LostPages;
    var f, v := FieldPass(w, c.fields).value, ViewPass(w, conn, c, c.views).value;
    var cands := Candidates(w, conn, c, listing).value;
    FieldsPending(w, conn, c, f);
    ViewsPending(w, conn, c, v);
    AddedAllClean(conn, Proposal(c.dataSource, [], []), cands);
    assert f + v <= cands;
    forall i | 0 <= i < |c.fields| ensures HasChange(p, Slot(SchemaChange, Some(c.fields[i].id), Some(c.fields[i].property))) {
      assert cands[i] == f[i];
      ChangeKeepsSlot(conn, cands[i]);
      assert SlotOf(p.changes[i]) == CandSlot(f[i]);
    }
    forall i | 0 <= i < |c.views| ensures HasChange(p, Slot(ViewChange, Some(c.views[i].id), Some(c.views[i].subject))) {
      assert cands[|f| + i] == v[i];
      ChangeKeepsSlot(conn, cands[|f| + i]);
      assert SlotOf(p.changes[|f| + i]) == CandSlot(v[i]);
    }
  }

  lemma ChangeKeepsSlot(conn: Connection, cand: Candidate)
    ensures SlotOf(ChangeOf(conn, cand)) == CandSlot(cand)
  {
  }

  /** A conflict-free preview of tidy stores, all of whose changes can be written. */
  ghost predicate Approvable(w: World, conn: Connection, c: Config, listing: Listing, p: Proposal) {
    && GoodConfig(c)
    && Lists(w, conn, c, listing) && TidyResources(w, c) && TidyTable(w, c) && "" !in w.pages
    && PreviewOf(w, conn, c, listing) == Ok(p) && p.conflicts == []
    && forall i :: 0 <= i < |p.changes| ==> Writable(c, p.changes[i])
  }

  /** The listing shows every page once. */
  ghost predicate ListsOnce(w: World, conn: Connection, c: Config, listing: Listing) {
    Lists(w, conn, c, listing) && forall i, j :: 0 <= i < j < |listing.pages| ==> listing.pages[i] != listing.pages[j]
  }

  lemma ApprovableParts(w: World, conn: Connection, c: Config, listing: Listing, p: Proposal)
    requires Approvable(w, conn, c, listing, p)
    ensures GoodConfig(c) && TitleField(c.fields).Some?
    ensures Ready(w, conn, c, p) && CoversSetup(c, p)
    ensures forall i, j :: 0 <= i < j < |c.views| ==> c.views[i].id != c.views[j].id
  {
    hide GoodConfig, Lists, PreviewOf, Writable, Ready, CoversSetup, CheckSchema, Standalone, TidyTable;
    GoodHasTitle(c);
    PreviewIsReady(w, conn, c, listing, p);
    PreviewChecksSchema(w, conn, c, listing);
    PreviewCoversSetup(w, conn, c, listing, p);
  }

  /** Once approved and left alone such a preview always goes through: wherever
      its run is, it can be taken to completion. */
  lemma SyncCompletes(w: World, conn: Connection, c: Config, listing: Listing, p: Proposal, sessions: seq<Session>) returns (whole: seq<Session>)
    requires Approvable(w, conn, c, listing, p)
    requires QuietRun(c, p, sessions) && sessions[0] == Opening(w, conn)
    ensures QuietRun(c, p, whole) && sessions <= whole && Last(whole).complete
  {
    hide Approvable, Ready, QuietStep;
    ApprovableParts(w, conn, c, listing, p);
    whole := QuietRunCompletes(w, conn, c, p, sessions);
  }

  lemma StuckIsRested(w: World, conn: Connection, c: Config, p: Proposal, sessions: seq<Session>) returns (slots: seq<Slot>)
    requires Ready(w, conn, c, p)
    requires QuietRun(c, p, sessions) && sessions[0] == Opening(w, conn) && Stuck(c, p, Last(sessions))
    ensures TitleField(c.fields).Some?
    ensures var end := Last(sessions);
      end.complete && Converged(c, p, end) && Rested(end.w, end.conn, c, p, slots)
  {
    assert TitleField(c.fields).Some?;
    hide Ready, QuietStep, OnTrack, Rested, Converged, Stuck, Rank, Invoke;
    QuietRunConverges(w, conn, c, p, sessions);
    ReadyIsOnTrack(w, conn, c, p);
    RunStaysOnTrack(c, p, sessions);
    EndIsSound(c, p, Last(sessions));
    CompletedIsRested(c, p, Last(sessions));
    slots := Slots(p, Last(sessions).cursor, Last(sessions).result);
  }

  /** The whole story without outside edits. A conflict-free preview of tidy
      stores, all of whose changes can be written, is approved and run. The run
      stops only when it is complete, and then both sides of every change show
      `desired`. The next preview has no conflicts, no state of its run writes
      anything on either side, and that run too stops only when it is complete:
      its one checkpoint was accepted and moved only the revision. */
  lemma SyncThenNothing(w: World, conn: Connection, c: Config, listing: Listing, p: Proposal, sessions: seq<Session>, again: Listing, later: seq<Session>)
    returns (silent: seq<Session>)
    requires Approvable(w, conn, c, listing, p)
    requires QuietRun(c, p, sessions) && sessions[0] == Opening(w, conn) && Stuck(c, p, Last(sessions))
    requires ListsOnce(Last(sessions).w, Last(sessions).conn, c, again)
    requires var end := Last(sessions);
      PreviewOf(end.w, end.conn, c, again).Ok? ==>
        QuietRun(c, PreviewOf(end.w, end.conn, c, again).value, later) && later[0] == Opening(end.w, end.conn)
    ensures TitleField(c.fields).Some?
    ensures Last(sessions).complete && Converged(c, p, Last(sessions))
    ensures var end := Last(sessions);
      && PreviewOf(end.w, end.conn, c, again).Ok?
      && var next := PreviewOf(end.w, end.conn, c, again).value;
         && next.conflicts == []
         && |later| <= |next.changes| + 3
         && (forall i :: 0 <= i < |later| ==>
              && later[i].w == end.w
              && WritesNothing(Invoke(later[i].w, later[i].conn, c, next, later[i].cursor, later[i].result)))
         && (Stuck(c, next, Last(later)) ==> Last(later).complete && Last(later).conn == NextRevision(end.conn))
         && QuietRun(c, next, silent) && later <= silent && Last(silent).complete
  {
    assert sessions != [];
    hide Approvable, ListsOnce, QuietRun, PreviewOf, Converged, Stuck, Invoke, Rested, CoversSetup, Ready;
    ApprovableParts(w, conn, c, listing, p);
    var slots := StuckIsRested(w, conn, c, p, sessions);
    silent := RestedStaysSilent(Last(sessions).w, Last(sessions).conn, c, p, slots, again, later);
  }

  lemma RestedStaysSilent(w: World, conn: Connection, c: Config, p: Proposal, slots: seq<Slot>, again: Listing, later: seq<Session>) returns (silent: seq<Session>)
    requires Rested(w, conn, c, p, slots) && CoversSetup(c, p) && ListsOnce(w, conn, c, again)
    requires forall i, j :: 0 <= i < j < |c.views| ==> c.views[i].id != c.views[j].id
    requires PreviewOf(w, conn, c, again).Ok? ==>
      QuietRun(c, PreviewOf(w, conn, c, again).value, later) && later[0] == Opening(w, conn)
    ensures PreviewOf(w, conn, c, again).Ok?
    ensures var next := PreviewOf(w, conn, c, again).value;
      && next.conflicts == []
      && later != [] && |later| <= |next.changes| + 3
      && (forall i :: 0 <= i < |later| ==>
           later[i].w == w && WritesNothing(Invoke(later[i].w, later[i].conn, c, next, later[i].cursor, later[i].result)))
      && (Stuck(c, next, Last(later)) ==> Last(later).complete && Last(later).conn == NextRevision(conn))
      && QuietRun(c, next, silent) && later <= silent && Last(silent).complete
  {
    hide Rested, CoversSetup, PreviewOf, QuietStep, Invoke, Resting, AllIdle, Remembered, CheckSchema, GoodConfig, Lists, WritesNothing, Stuck;
    RestedParts(w, conn, c, p, slots);
    SchemaOkIsTrue(w, c);
    NextPreviewIsIdle(w, conn, c, p, slots, again);
    NextPreviewIsRemembered(w, conn, c, p, slots, again);
    var next := PreviewOf(w, conn, c, again).value;
    IdleRunWritesNothing(w, conn, c, next, later);
    RestingWorld(w, conn, later, next);
    silent := IdleRunCompletes(w, conn, c, next, later);
  }

  lemma EndIsSound(c: Config, p: Proposal, s: Session)
    requires OnTrack(c, p, s)
    ensures |s.cursor.records| == s.cursor.index
  {
  }

  lemma RestingWorld(w: World, conn: Connection, later: seq<Session>, next: Proposal)
    ensures forall i :: 0 <= i < |later| && Resting(w, conn, later[i], next) ==> later[i].w == w
  {
  }

  lemma PreviewChecksSchema(w: World, conn: Connection, c: Config, listing: Listing)
    requires PreviewOf(w, conn, c, listing).Ok?
    ensures CheckSchema(w, c).Ok?
  {
  }
}
