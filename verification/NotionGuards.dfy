/** What every write of a run rests on, whatever happens between two invocations:
    nothing that was changed since the preview is overwritten. */
module NotionGuards {
  import opened Wrappers
  import opened NotionModel
  import opened NotionRows
  import opened NotionViews
  import opened NotionSync
  import opened NotionSafety

  // ----- What a visit must have seen -----

  /** Both sides still show what the preview saw. */
  ghost predicate StillAsPreviewed(v: Visit, c: Config, ch: Change) {
    && ReadLocal(v.w, v.conn, c, ch, ch.subject) == Ok(ch.local)
    && (ch.id.Some? ==> ch.remote.Some? && ReadRemote(v.w, c, ch.kind, ch.id) == Ok(ch.remote.value))
  }

  /** The Atomic side shows what the preview saw, or already what is desired. */
  ghost predicate Unedited(v: Visit, c: Config, ch: Change) {
    var here := ReadLocal(v.w, v.conn, c, ch, ch.subject);
    here == Ok(ch.local) || here == Ok(Some(ch.desired))
  }

  /** No other row of the table carries the page's id or its import identity, and
      the written row belongs to no other import. */
  ghost predicate Unclaimed(w: World, c: Config, page: NotionId, subject: Option<Iri>) {
    && (forall s :: s in w.resources && Get(w.resources[s], Parent) == Link(c.table)
          && (Get(w.resources[s], c.identity) == Id(page) || Get(w.resources[s], LocalId) == SourceId(c, page))
          ==> Some(s) == subject)
    && (subject.Some? ==> Get(Read(w, subject.value), LocalId).Missing? || Get(Read(w, subject.value), LocalId) == SourceId(c, page))
  }

  /** The request goes to the change's own object, or creates the page of a new one. */
  predicate Addresses(request: Request, c: Config, ch: Change) {
    match request
    case CreatePage(dataSource, _) => ch.kind == PageChange && ch.id == None && dataSource == c.dataSource
    case UpdatePage(page, _) => ch.kind == PageChange && ch.id == Some(page)
    case RenameProperty(property, _) => ch.kind == SchemaChange && ch.id == Some(property)
    case UpdateView(view, _) => ch.kind == ViewChange && ch.id == Some(view)
  }

  predicate Targets(intent: Intent, c: Config, ch: Change) {
    match intent
    case SetIntent(subject, _) => ch.subject == Some(subject)
    case RemoveIntent(subject, _) => ch.subject == Some(subject)
    case CreateIntent(parent, isA, _) => ch.subject == None && parent == c.table && isA == [c.rowClass]
  }

  ghost predicate Guarded(v: Visit, c: Config, p: Proposal, e: Effect, next: Cursor) {
    match e
    case External(i, request) =>
      i < |p.changes| && StillAsPreviewed(v, c, p.changes[i]) && CheckSchema(v.w, c).Ok? && Addresses(request, c, p.changes[i])
    case Atomic(i, intents) =>
      && i < |p.changes|
      && var ch := p.changes[i];
         && Unedited(v, c, ch)
         && next.id.Some? && (ch.id.Some? ==> next.id == ch.id)
         && ReadRemote(v.w, c, ch.kind, next.id) == Ok(ch.desired)
         && (ch.kind == PageChange ==> Unclaimed(v.w, c, next.id.value, ch.subject))
         && forall k :: 0 <= k < |intents| ==> Targets(intents[k], c, ch)
    case Checkpoint(_) => true
  }

  // ----- The cursor points at the change's own objects -----

  ghost predicate Pointed(p: Proposal, cursor: Cursor) {
    && |cursor.records| == cursor.index
    && (forall i :: 0 <= i < cursor.index && i < |p.changes| && p.changes[i].id.Some? ==> cursor.records[i].remote == p.changes[i].id)
    && (cursor.index < |p.changes| ==>
          var ch := p.changes[cursor.index];
          match cursor.stage
          case Start => true
          case Created => cursor.subject == ch.subject && ch.id.None?
          case Local => cursor.subject == ch.subject && (ch.id.Some? ==> cursor.id == ch.id)
          case Written => ch.id.Some? ==> cursor.id == ch.id
          case Verify => ch.id.Some? ==> cursor.id == ch.id
          case Done => true)
  }

  ghost predicate PointedOutcome(v: Visit, c: Config, p: Proposal, outcome: Outcome) {
    match outcome
    case Emit(e, next) => Pointed(p, next) && Guarded(v, c, p, e, next)
    case Continue(next) => Pointed(p, next)
    case _ => true
  }

  ghost predicate PointedTurn(v: Visit, c: Config, p: Proposal, turn: Turn) {
    match turn
    case Go(next) => Pointed(p, next)
    case Return(outcome) => PointedOutcome(v, c, p, outcome)
  }

  lemma WriteAddresses(w: World, c: Config, ch: Change)
    ensures var write := ProviderWrite(w, c, ch);
      write.Ok? && write.value.Some? ==> Addresses(write.value.value, c, ch)
    ensures ProviderWrite(w, c, ch).Ok? && ProviderWrite(w, c, ch).value.Some? ==>
      (ProviderWrite(w, c, ch).value.value.CreatePage? <==> ch.id.None?)
    ensures ProviderWrite(w, c, ch) == Ok(None) ==> ch.id.Some? || ch.kind == SchemaChange
  {
    hide PagePatchOf, RemoteViewPatch;
  }

  lemma SteadyIsAsPreviewed(v: Visit, c: Config, ch: Change)
    requires AsPreviewed(v.w, v.conn, c, ch).Ok?
    ensures StillAsPreviewed(v, c, ch) && CheckSchema(v.w, c).Ok?
  {
    hide ReadLocal, ReadRemote, CheckSchema;
  }

  lemma StartPointed(v: Visit, c: Config, p: Proposal, cursor: Cursor)
    requires Pointed(p, cursor) && cursor.stage == Start && cursor.index < |p.changes|
    ensures PointedTurn(v, c, p, StartTurn(v.w, v.conn, c, p.changes[cursor.index], cursor))
  {
    hide AsPreviewed, ProviderWrite, StillAsPreviewed, CheckSchema, Addresses;
    var ch := p.changes[cursor.index];
    WriteAddresses(v.w, c, ch);
    if AsPreviewed(v.w, v.conn, c, ch).Ok? {
      SteadyIsAsPreviewed(v, c, ch);
    }
  }

  lemma PatchIsUnclaimed(v: Visit, c: Config, ch: Change, cursor: Cursor)
    requires ch.kind == PageChange && LocalPatch(v.w, v.conn, c, ch, cursor).Ok?
    ensures cursor.id.Some? && Unclaimed(v.w, c, cursor.id.value, cursor.subject)
  {
    hide RowPatchOf;
    forall s | s in v.w.resources && Get(v.w.resources[s], Parent) == Link(c.table)
      && (Get(v.w.resources[s], c.identity) == Id(cursor.id.value) || Get(v.w.resources[s], LocalId) == SourceId(c, cursor.id.value))
      ensures Some(s) == cursor.subject
    {
      assert s in TableMatches(v.w, c, c.identity, Id(cursor.id.value)) || s in TableMatches(v.w, c, LocalId, SourceId(c, cursor.id.value));
    }
  }

  lemma LocalPointed(v: Visit, c: Config, p: Proposal, cursor: Cursor)
    requires Pointed(p, cursor) && cursor.stage == Local && cursor.index < |p.changes|
    ensures PointedTurn(v, c, p, LocalTurn(v.w, v.conn, c, p.changes[cursor.index], cursor))
  {
    hide ReadLocal, ReadRemote, LocalPatch, AlreadyWritten, Unclaimed;
    var ch := p.changes[cursor.index];
    if ch.kind == PageChange && LocalPatch(v.w, v.conn, c, ch, cursor).Ok? {
      PatchIsUnclaimed(v, c, ch, cursor);
    }
    NoIdNoRead(v, c, ch, cursor);
  }

  lemma NoIdNoRead(v: Visit, c: Config, ch: Change, cursor: Cursor)
    ensures ReadRemote(v.w, c, ch.kind, cursor.id).Ok? ==> cursor.id.Some?
  {
    hide CheckSchema, PageProjection, RemoteViewProjection;
  }

  lemma TurnPointed(v: Visit, c: Config, p: Proposal, cursor: Cursor)
    requires Pointed(p, cursor)
    ensures PointedTurn(v, c, p, TurnOf(v.w, v.conn, c, p, cursor, v.result))
  {
    hide StartTurn, LocalTurn, Guarded, ReadLocal, ReadRemote, PageProjection;
    if cursor.stage == Start && cursor.index < |p.changes| {
      StartPointed(v, c, p, cursor);
    } else if cursor.stage == Local && cursor.index < |p.changes| {
      LocalPointed(v, c, p, cursor);
    } else if cursor.stage != Done && cursor.index == |p.changes| {
      CheckpointGuarded(v, c, p, cursor.records, cursor.(stage := Done));
    }
  }

  lemma CheckpointGuarded(v: Visit, c: Config, p: Proposal, records: seq<SyncRecord>, next: Cursor)
    ensures Guarded(v, c, p, Checkpoint(records), next)
  {
  }

  lemma {:induction false} DrivePointed(v: Visit, c: Config, p: Proposal, cursor: Cursor, budget: nat)
    requires Pointed(p, cursor)
    ensures PointedOutcome(v, c, p, Drive(Turner(v.w, v.conn, c, p, v.result), cursor, budget))
    decreases budget
  {
    hide TurnOf, Pointed, Guarded;
    if budget > 0 {
      TurnPointed(v, c, p, cursor);
      match TurnOf(v.w, v.conn, c, p, cursor, v.result) {
        case Return(_) =>
        case Go(next) => DrivePointed(v, c, p, next, budget - 1);
      }
    }
  }

  lemma InvokePointed(v: Visit, c: Config, p: Proposal, cursor: Cursor)
    requires Pointed(p, cursor)
    ensures PointedOutcome(v, c, p, Invoke(v.w, v.conn, c, p, cursor, v.result))
  {
    hide Pointed, Guarded, AcceptedConfig, Approved, Drive;
    DrivePointed(v, c, p, cursor, BUDGET);
  }

  // ----- Whole runs -----

  /** In every run the cursor and its records speak of the change's own provider object. */
  lemma {:induction false} HeldPointed(c: Config, p: Proposal, visits: seq<Visit>)
    ensures Pointed(p, Held(History(c, p, visits)))
  {
    if visits != [] {
      var n := |visits| - 1;
      HeldPointed(c, p, visits[..n]);
      hide Pointed, Guarded, Invoke;
      InvokePointed(visits[n], c, p, Held(History(c, p, visits[..n])));
    }
  }

  lemma EffectGuarded(c: Config, p: Proposal, visits: seq<Visit>, k: nat)
    requires k < |visits| && History(c, p, visits)[k].outcome.Emit?
    ensures Guarded(visits[k], c, p, History(c, p, visits)[k].outcome.effect, History(c, p, visits)[k].outcome.next)
  {
    hide Pointed, Guarded, Invoke;
    HistoryAt(c, p, visits, k);
    HeldPointed(c, p, visits[..k]);
    InvokePointed(visits[k], c, p, Held(History(c, p, visits[..k])));
  }

  /** No edit made after the preview is overwritten on the Atomic side, whatever is
      edited when: a write goes out only where that very visit shows what the
      preview saw or what is desired, with the provider already at `desired`. It
      goes to the change's own resource, or creates one where there was none; and
      for a page, nothing else in the table carries its id or import identity. */
  lemma AtomicOverwritesNoEdit(c: Config, p: Proposal, visits: seq<Visit>, k: nat)
    requires k < |visits|
    requires History(c, p, visits)[k].outcome.Emit? && History(c, p, visits)[k].outcome.effect.Atomic?
    ensures var outcome := History(c, p, visits)[k].outcome;
      && outcome.effect.index < |p.changes|
      && var ch, here := p.changes[outcome.effect.index], ReadLocal(visits[k].w, visits[k].conn, c, p.changes[outcome.effect.index], p.changes[outcome.effect.index].subject);
         && (here == Ok(ch.local) || here == Ok(Some(ch.desired)))
         && outcome.next.id.Some? && (ch.id.Some? ==> outcome.next.id == ch.id)
         && ReadRemote(visits[k].w, c, ch.kind, outcome.next.id) == Ok(ch.desired)
         && (ch.kind == PageChange ==> Unclaimed(visits[k].w, c, outcome.next.id.value, ch.subject))
         && forall j :: 0 <= j < |outcome.effect.intents| ==> Targets(outcome.effect.intents[j], c, ch)
  {
    hide Invoke, ReadLocal, ReadRemote, Unclaimed, Targets;
    EffectGuarded(c, p, visits, k);
  }

  /** Nor on the provider's side: a request goes out only where that visit shows both
      sides as previewed and the data source still fits, and to the change's own object. */
  lemma ExternalOverwritesNoEdit(c: Config, p: Proposal, visits: seq<Visit>, k: nat)
    requires k < |visits|
    requires History(c, p, visits)[k].outcome.Emit? && History(c, p, visits)[k].outcome.effect.External?
    ensures var e := History(c, p, visits)[k].outcome.effect;
      && e.index < |p.changes|
      && var ch := p.changes[e.index];
         && ReadLocal(visits[k].w, visits[k].conn, c, ch, ch.subject) == Ok(ch.local)
         && (ch.id.Some? ==> ch.remote.Some? && ReadRemote(visits[k].w, c, ch.kind, ch.id) == Ok(ch.remote.value))
         && CheckSchema(visits[k].w, c).Ok?
         && Addresses(e.request, c, ch)
  {
    hide Invoke, ReadLocal, ReadRemote, CheckSchema, Addresses;
    EffectGuarded(c, p, visits, k);
  }

  // ----- Receipts -----

  /** A page the provider was asked to create is taken on only from a receipt that
      reports success and shows a page that can be read; and then by its id. */
  lemma CreatedNeedsReceipt(c: Config, p: Proposal, v: Visit, cursor: Cursor)
    requires cursor.stage == Created && cursor.index < |p.changes|
    requires !Invoke(v.w, v.conn, c, p, cursor, v.result).Fail?
    ensures v.result.PageReceipt? && v.result.ok && PageProjection(v.result.page, c).Ok?
    ensures var outcome := Invoke(v.w, v.conn, c, p, cursor, v.result);
      && (outcome.Emit? ==> outcome.next.id == Some(v.result.id))
      && (outcome.Continue? ==> |outcome.next.records| == |cursor.records| + 1 && outcome.next.records[|cursor.records|].remote == Some(v.result.id))
  {
    var turn := Turner(v.w, v.conn, c, p, v.result);
    hide PageProjection, LocalTurn, VerifyTurn, StartTurn;
    assert turn(cursor) == CreatedTurn(c, cursor, v.result);
    if turn(cursor).Go? {
      var second := turn(cursor).cursor;
      assert Drive(turn, cursor, BUDGET) == Drive(turn, second, BUDGET - 1);
      LocalFinishes(c, p, v, second);
    }
  }

  lemma LocalFinishes(c: Config, p: Proposal, v: Visit, cursor: Cursor)
    requires cursor.stage == Local && cursor.index < |p.changes|
    ensures var outcome := Drive(Turner(v.w, v.conn, c, p, v.result), cursor, BUDGET - 1);
      && (outcome.Emit? ==> outcome.next.id == cursor.id)
      && (outcome.Continue? ==> |outcome.next.records| == |cursor.records| + 1 && outcome.next.records[|cursor.records|].remote == cursor.id)
  {
    hide ReadLocal, ReadRemote, LocalPatch, AlreadyWritten, Intents, PageProjection;
    var turn := Turner(v.w, v.conn, c, p, v.result);
    assert turn(cursor) == LocalTurn(v.w, v.conn, c, p.changes[cursor.index], cursor);
    if turn(cursor).Go? {
      var last := turn(cursor).cursor;
      assert turn(last) == VerifyTurn(v.w, v.conn, c, p.changes[cursor.index], last);
      assert Drive(turn, cursor, BUDGET - 1) == Drive(turn, last, BUDGET - 2) == turn(last).outcome;
    }
  }

  /** An Atomic write counts only with a receipt that names the resource, and that is
      the one recorded. */
  lemma WrittenNeedsReceipt(c: Config, p: Proposal, v: Visit, cursor: Cursor)
    requires cursor.stage == Written && cursor.index < |p.changes|
    requires !Invoke(v.w, v.conn, c, p, cursor, v.result).Fail?
    ensures v.result.AtomicReceipt? && v.result.subject.Some?
    ensures var outcome := Invoke(v.w, v.conn, c, p, cursor, v.result);
      outcome.Continue? && |outcome.next.records| == |cursor.records| + 1 && outcome.next.records[|cursor.records|].local == v.result.subject
  {
    hide ReadLocal, ReadRemote;
    var turn := Turner(v.w, v.conn, c, p, v.result);
    assert turn(cursor) == WrittenTurn(cursor, v.result);
    if turn(cursor).Go? {
      var second := turn(cursor).cursor;
      assert turn(second) == VerifyTurn(v.w, v.conn, c, p.changes[cursor.index], second);
      assert Drive(turn, cursor, BUDGET) == Drive(turn, second, BUDGET - 1) == turn(second).outcome;
    }
  }

  /** Nothing runs but an approved preview of the connected data source, without
      conflicts, under a mapping that names every field and property once. */
  lemma RunsOnlyApproved(w: World, conn: Connection, c: Config, p: Proposal, cursor: Cursor, result: Receipt)
    requires !Invoke(w, conn, c, p, cursor, result).Fail?
    ensures p.dataSource == c.dataSource && p.conflicts == [] && c.fields != []
    ensures forall i, j :: 0 <= i < j < |c.fields| ==> c.fields[i].id != c.fields[j].id && c.fields[i].property != c.fields[j].property
  {
    hide Drive, TurnOf;
  }
}
