/** What every sync run keeps when anything at all may happen to both stores,
    to the connection and to the saved receipts between two invocations. */
module NotionSafety {
  import opened Wrappers
  import opened NotionModel
  import opened NotionSync

  /** What one invocation finds. Nothing relates one visit to the next. */
  datatype Visit = Visit(w: World, conn: Connection, result: Receipt)

  datatype Moment = Moment(visit: Visit, before: Cursor, outcome: Outcome)

  /** The cursor the host holds afterwards; a failed invocation may be tried again. */
  function After(m: Moment): Cursor {
    match m.outcome
    case Emit(_, next) => next
    case Continue(next) => next
    case _ => m.before
  }

  function Held(moments: seq<Moment>): Cursor {
    if moments == [] then FIRST else After(moments[|moments| - 1])
  }

  function Meet(c: Config, p: Proposal, cursor: Cursor, v: Visit): Moment {
    Moment(v, cursor, Invoke(v.w, v.conn, c, p, cursor, v.result))
  }

  /** The run over a sequence of visits, from the start. */
  function History(c: Config, p: Proposal, visits: seq<Visit>): (h: seq<Moment>)
    ensures |h| == |visits|
  {
    if visits == [] then []
    else
      var n := |visits| - 1;
      var earlier := History(c, p, visits[..n]);
      earlier + [Meet(c, p, Held(earlier), visits[n])]
  }

  // ----- What a cursor may look like -----

  predicate AlignedRecord(change: Change, record: SyncRecord) {
    && record.kind == change.kind
    && record.localProjection == Some(change.desired)
    && record.remoteProjection == change.desired
  }

  ghost predicate Sound(p: Proposal, cursor: Cursor) {
    && cursor.index <= |p.changes|
    && |cursor.records| == cursor.index
    && (cursor.stage == Done ==> cursor.index == |p.changes|)
    && (cursor.index == |p.changes| ==> cursor.stage == Start || cursor.stage == Done)
    && (forall i :: 0 <= i < cursor.index ==> AlignedRecord(p.changes[i], cursor.records[i]))
  }

  /** Turns left before an invocation at this stage must return. */
  function TurnsLeft(stage: Stage): nat {
    match stage
    case Start | Created => 3
    case Local | Written => 2
    case Verify | Done => 1
  }

  function MovesLeft(stage: Stage): nat {
    match stage
    case Start => 3
    case Created | Local => 2
    case Written | Verify | Done => 1
  }

  /** Falls with every effect and every `continue`. */
  function Rank(p: Proposal, cursor: Cursor): int {
    if cursor.index >= |p.changes| then (if cursor.stage == Start then 1 else 0)
    else 3 * (|p.changes| - cursor.index - 1) + 1 + MovesLeft(cursor.stage)
  }

  /** Effects in the order their ids "0:remote", "0:atomic", "1:remote", ..., "checkpoint" come. */
  function Order(p: Proposal, e: Effect): nat {
    match e
    case External(i, _) => 2 * i
    case Atomic(i, _) => 2 * i + 1
    case Checkpoint(_) => 2 * |p.changes|
  }

  /** No effect before this one can still be emitted. */
  function Floor(p: Proposal, cursor: Cursor): nat {
    match cursor.stage
    case Start => 2 * cursor.index
    case Created | Local => 2 * cursor.index + 1
    case Written | Verify => 2 * cursor.index + 2
    case Done => 2 * |p.changes| + 1
  }

  ghost predicate BothAgree(v: Visit, c: Config, change: Change, id: Option<NotionId>, subject: Option<Iri>) {
    && ReadLocal(v.w, v.conn, c, change, subject) == Ok(Some(change.desired))
    && ReadRemote(v.w, c, change.kind, id) == Ok(change.desired)
  }

  /** Some earlier visit saw both sides of the recorded change at `desired`. */
  ghost predicate SeenAgreed(visits: seq<Visit>, c: Config, change: Change, record: SyncRecord) {
    exists k :: 0 <= k < |visits| && BothAgree(visits[k], c, change, record.remote, record.local)
  }

  lemma SeenAgreedLater(visits: seq<Visit>, n: nat, c: Config, change: Change, record: SyncRecord)
    requires n <= |visits| && SeenAgreed(visits[..n], c, change, record)
    ensures SeenAgreed(visits, c, change, record)
  {
    var k :| 0 <= k < n && BothAgree(visits[..n][k], c, change, record.remote, record.local);
    assert visits[..n][k] == visits[k];
  }

  /** What an effect may rest on: an Atomic write, on the provider already
      showing the desired projection; the checkpoint, on every change being done. */
  ghost predicate Grounded(v: Visit, c: Config, p: Proposal, before: Cursor, e: Effect, next: Cursor) {
    match e
    case External(i, _) => i == before.index < |p.changes|
    case Atomic(i, _) => i == before.index < |p.changes| && ReadRemote(v.w, c, p.changes[i].kind, next.id) == Ok(p.changes[i].desired)
    case Checkpoint(records) => before.index == |p.changes| && records == before.records
  }

  ghost predicate GoodTurn(v: Visit, c: Config, p: Proposal, cursor: Cursor, turn: Turn) {
    match turn
    case Go(next) =>
      && Sound(p, next)
      && next.index == cursor.index && next.records == cursor.records
      && TurnsLeft(next.stage) < TurnsLeft(cursor.stage)
      && Floor(p, cursor) <= Floor(p, next)
      && Rank(p, next) <= Rank(p, cursor)
    case Return(outcome) => GoodOutcome(v, c, p, cursor, outcome)
  }

  ghost predicate GoodOutcome(v: Visit, c: Config, p: Proposal, cursor: Cursor, outcome: Outcome) {
    match outcome
    case Emit(e, next) =>
      && Sound(p, next)
      && next.index == cursor.index && next.records == cursor.records
      && Rank(p, next) < Rank(p, cursor)
      && Floor(p, cursor) <= Order(p, e) < Floor(p, next)
      && Grounded(v, c, p, cursor, e, next)
    case Continue(next) =>
      && Sound(p, next)
      && cursor.index < |p.changes| && next.index == cursor.index + 1 && next.stage == Start
      && next.records[..cursor.index] == cursor.records
      && Rank(p, next) < Rank(p, cursor)
      && Floor(p, cursor) <= Floor(p, next)
      && BothAgree(v, c, p.changes[cursor.index], next.records[cursor.index].remote, next.records[cursor.index].local)
    case Complete => cursor.index == |p.changes| && cursor.stage == Done
    case Fail(_) => true
  }

  lemma LocalTurnGood(v: Visit, c: Config, p: Proposal, cursor: Cursor)
    requires Sound(p, cursor) && cursor.stage == Local && cursor.index < |p.changes|
    ensures GoodTurn(v, c, p, cursor, LocalTurn(v.w, v.conn, c, p.changes[cursor.index], cursor))
  {
    hide ReadLocal, ReadRemote, LocalPatch, AlreadyWritten, Intents;
  }

  lemma VerifyTurnGood(v: Visit, c: Config, p: Proposal, cursor: Cursor)
    requires Sound(p, cursor) && cursor.stage == Verify && cursor.index < |p.changes|
    ensures GoodTurn(v, c, p, cursor, VerifyTurn(v.w, v.conn, c, p.changes[cursor.index], cursor))
  {
    hide ReadLocal, ReadRemote;
  }

  lemma StartTurnGood(v: Visit, c: Config, p: Proposal, cursor: Cursor)
    requires Sound(p, cursor) && cursor.stage == Start && cursor.index < |p.changes|
    ensures GoodTurn(v, c, p, cursor, StartTurn(v.w, v.conn, c, p.changes[cursor.index], cursor))
  {
  }

  lemma TurnGood(v: Visit, c: Config, p: Proposal, cursor: Cursor)
    requires Sound(p, cursor)
    ensures GoodTurn(v, c, p, cursor, TurnOf(v.w, v.conn, c, p, cursor, v.result))
  {
    hide StartTurn, LocalTurn, VerifyTurn, AlignedRecord, PageProjection;
    if cursor.stage != Done && cursor.index < |p.changes| {
      match cursor.stage {
        case Start => StartTurnGood(v, c, p, cursor);
        case Local => LocalTurnGood(v, c, p, cursor);
        case Verify => VerifyTurnGood(v, c, p, cursor);
        case Created =>
        case Written =>
      }
    }
  }

  /** An invocation takes at most three turns, so the budget of eight is never spent. */
  ghost predicate ReturnsWithin(turn: Cursor -> Turn, cursor: Cursor, turns: nat)
    decreases turns
  {
    turns > 0 &&
    match turn(cursor)
    case Return(_) => true
    case Go(next) => ReturnsWithin(turn, next, turns - 1)
  }

  lemma {:induction false} WithinBudget(v: Visit, c: Config, p: Proposal, cursor: Cursor)
    requires Sound(p, cursor)
    ensures ReturnsWithin(Turner(v.w, v.conn, c, p, v.result), cursor, TurnsLeft(cursor.stage))
    decreases TurnsLeft(cursor.stage)
  {
    TurnGood(v, c, p, cursor);
    match Turner(v.w, v.conn, c, p, v.result)(cursor) {
      case Return(_) =>
      case Go(next) =>
        WithinBudget(v, c, p, next);
        WithinMore(Turner(v.w, v.conn, c, p, v.result), next, TurnsLeft(next.stage), TurnsLeft(cursor.stage) - 1);
    }
  }

  lemma {:induction false} WithinMore(turn: Cursor -> Turn, cursor: Cursor, few: nat, many: nat)
    requires few <= many && ReturnsWithin(turn, cursor, few)
    ensures ReturnsWithin(turn, cursor, many)
    decreases few
  {
    match turn(cursor) {
      case Return(_) =>
      case Go(next) => WithinMore(turn, next, few - 1, many - 1);
    }
  }

  /** What is good of a later cursor of the same invocation is good of the first one. */
  lemma GoodThrough(v: Visit, c: Config, p: Proposal, cursor: Cursor, next: Cursor, outcome: Outcome)
    requires GoodTurn(v, c, p, cursor, Go(next)) && GoodOutcome(v, c, p, next, outcome) && cursor.index < |p.changes|
    ensures GoodOutcome(v, c, p, cursor, outcome)
  {
    hide Sound, BothAgree, ReadRemote, Rank, Floor, TurnsLeft, Order;
    SoundLater(v, c, p, cursor, next);
  }

  lemma SoundLater(v: Visit, c: Config, p: Proposal, cursor: Cursor, next: Cursor)
    requires GoodTurn(v, c, p, cursor, Go(next))
    ensures Sound(p, next) && |next.records| == next.index
  {
  }

  lemma {:induction false} DriveGood(v: Visit, c: Config, p: Proposal, cursor: Cursor, budget: nat)
    requires Sound(p, cursor)
    ensures GoodOutcome(v, c, p, cursor, Drive(Turner(v.w, v.conn, c, p, v.result), cursor, budget))
    decreases budget
  {
    hide TurnOf, Sound, GoodOutcome;
    if budget == 0 {
      FailGood(v, c, p, cursor);
    } else {
      TurnGood(v, c, p, cursor);
      match TurnOf(v.w, v.conn, c, p, cursor, v.result) {
        case Return(_) =>
        case Go(next) =>
          DriveGood(v, c, p, next, budget - 1);
          GoInside(v, c, p, cursor);
          GoodThrough(v, c, p, cursor, next, Drive(Turner(v.w, v.conn, c, p, v.result), next, budget - 1));
      }
    }
  }

  lemma GoInside(v: Visit, c: Config, p: Proposal, cursor: Cursor)
    requires TurnOf(v.w, v.conn, c, p, cursor, v.result).Go?
    ensures cursor.index < |p.changes|
  {
  }

  lemma FailGood(v: Visit, c: Config, p: Proposal, cursor: Cursor)
    ensures GoodOutcome(v, c, p, cursor, Fail(OVER_BUDGET))
  {
  }

  lemma InvokeGood(v: Visit, c: Config, p: Proposal, cursor: Cursor)
    requires Sound(p, cursor)
    ensures GoodOutcome(v, c, p, cursor, Invoke(v.w, v.conn, c, p, cursor, v.result))
  {
    DriveGood(v, c, p, cursor, BUDGET);
  }

  // ----- Whole runs -----

  lemma {:induction false} HistoryAt(c: Config, p: Proposal, visits: seq<Visit>, k: nat)
    requires k < |visits|
    ensures History(c, p, visits)[..k] == History(c, p, visits[..k])
    ensures History(c, p, visits)[k] == Meet(c, p, Held(History(c, p, visits[..k])), visits[k])
    decreases |visits|
  {
    var n := |visits| - 1;
    var h, earlier := History(c, p, visits), History(c, p, visits[..n]);
    assert h[..n] == earlier;
    if k < n {
      HistoryAt(c, p, visits[..n], k);
      assert visits[..n][..k] == visits[..k];
      assert h[..k] == earlier[..k] && h[k] == earlier[k];
    }
  }

  lemma {:induction false} HeldSound(c: Config, p: Proposal, visits: seq<Visit>)
    ensures Sound(p, Held(History(c, p, visits)))
  {
    if visits != [] {
      var n := |visits| - 1;
      HeldSound(c, p, visits[..n]);
      InvokeGood(visits[n], c, p, Held(History(c, p, visits[..n])));
    }
  }

  /** Whatever happens between invocations: the records are one per finished
      change, and each finished change was seen with both sides at `desired`. */
  lemma {:induction false} FinishedChangesAgreed(c: Config, p: Proposal, visits: seq<Visit>, i: nat)
    requires i < Held(History(c, p, visits)).index
    ensures var cursor := Held(History(c, p, visits));
      && |cursor.records| == cursor.index <= |p.changes|
      && AlignedRecord(p.changes[i], cursor.records[i])
      && SeenAgreed(visits, c, p.changes[i], cursor.records[i])
  {
    HeldSound(c, p, visits);
    var n := |visits| - 1;
    var earlier := Held(History(c, p, visits[..n])).index;
    HeldGrows(c, p, visits);
    if i < earlier {
      FinishedChangesAgreed(c, p, visits[..n], i);
      SeenAgreedLater(visits, n, c, p.changes[i], Held(History(c, p, visits)).records[i]);
    } else {
      assert i == earlier;
    }
  }

  /** One more visit keeps the finished records and adds at most one, seen agreed there. */
  lemma HeldGrows(c: Config, p: Proposal, visits: seq<Visit>)
    requires visits != []
    ensures var n := |visits| - 1;
      var earlier, cursor := Held(History(c, p, visits[..n])), Held(History(c, p, visits));
      && Sound(p, earlier) && Sound(p, cursor)
      && earlier.index <= cursor.index <= earlier.index + 1
      && (forall i :: 0 <= i < earlier.index ==> cursor.records[i] == earlier.records[i])
      && (cursor.index == earlier.index + 1 ==> SeenAgreed(visits, c, p.changes[earlier.index], cursor.records[earlier.index]))
      && Floor(p, earlier) <= Floor(p, cursor)
  {
    var n := |visits| - 1;
    var earlier, cursor := Held(History(c, p, visits[..n])), Held(History(c, p, visits));
    HeldSound(c, p, visits);
    HeldSound(c, p, visits[..n]);
    InvokeGood(visits[n], c, p, earlier);
    if cursor.index == earlier.index + 1 {
      forall i | 0 <= i < earlier.index ensures cursor.records[i] == earlier.records[i] {
        assert cursor.records[..earlier.index][i] == cursor.records[i];
      }
      var record := cursor.records[earlier.index];
      assert BothAgree(visits[n], c, p.changes[earlier.index], record.remote, record.local);
    }
  }

  /** No Atomic write goes out before the provider shows the desired projection. */
  lemma AtomicOnlyAfterRemote(c: Config, p: Proposal, visits: seq<Visit>, k: nat)
    requires k < |visits|
    requires History(c, p, visits)[k].outcome.Emit? && History(c, p, visits)[k].outcome.effect.Atomic?
    ensures var outcome := History(c, p, visits)[k].outcome;
      && outcome.effect.index < |p.changes|
      && ReadRemote(visits[k].w, c, p.changes[outcome.effect.index].kind, outcome.next.id) == Ok(p.changes[outcome.effect.index].desired)
  {
    HistoryAt(c, p, visits, k);
    HeldSound(c, p, visits[..k]);
    InvokeGood(visits[k], c, p, Held(History(c, p, visits[..k])));
  }

  /** The checkpoint carries one aligned record per change, and every change was
      seen agreed on both sides before it went out. */
  lemma CheckpointCoversEveryChange(c: Config, p: Proposal, visits: seq<Visit>, k: nat)
    requires k < |visits|
    requires History(c, p, visits)[k].outcome.Emit? && History(c, p, visits)[k].outcome.effect.Checkpoint?
    ensures var records := History(c, p, visits)[k].outcome.effect.records;
      && |records| == |p.changes|
      && forall i :: 0 <= i < |p.changes| ==>
           && AlignedRecord(p.changes[i], records[i])
           && SeenAgreed(visits[..k], c, p.changes[i], records[i])
  {
    HistoryAt(c, p, visits, k);
    var before := Held(History(c, p, visits[..k]));
    HeldSound(c, p, visits[..k]);
    InvokeGood(visits[k], c, p, before);
    forall i | 0 <= i < |p.changes|
      ensures AlignedRecord(p.changes[i], before.records[i])
      ensures SeenAgreed(visits[..k], c, p.changes[i], before.records[i])
    {
      FinishedChangesAgreed(c, p, visits[..k], i);
    }
  }

  lemma {:induction false} FloorRises(c: Config, p: Proposal, visits: seq<Visit>, j: nat)
    requires j <= |visits|
    ensures Floor(p, Held(History(c, p, visits[..j]))) <= Floor(p, Held(History(c, p, visits)))
  {
    if j < |visits| {
      var n := |visits| - 1;
      assert visits[..n][..j] == visits[..j];
      FloorRises(c, p, visits[..n], j);
      HeldGrows(c, p, visits);
    } else {
      assert visits[..j] == visits;
    }
  }

  /** Effects leave in one fixed order, so no effect id is ever emitted twice in a run. */
  lemma EffectIdsOnce(c: Config, p: Proposal, visits: seq<Visit>, j: nat, k: nat)
    requires j < k < |visits|
    requires History(c, p, visits)[j].outcome.Emit? && History(c, p, visits)[k].outcome.Emit?
    ensures Order(p, History(c, p, visits)[j].outcome.effect) < Order(p, History(c, p, visits)[k].outcome.effect)
  {
    EmittedAfterFloor(c, p, visits, j);
    EmittedAfterFloor(c, p, visits, k);
    assert visits[..k][..j + 1] == visits[..j + 1];
    FloorRises(c, p, visits[..k], j + 1);
  }

  lemma EmittedAfterFloor(c: Config, p: Proposal, visits: seq<Visit>, k: nat)
    requires k < |visits| && History(c, p, visits)[k].outcome.Emit?
    ensures Floor(p, Held(History(c, p, visits[..k]))) <= Order(p, History(c, p, visits)[k].outcome.effect)
              < Floor(p, Held(History(c, p, visits[..k + 1])))
  {
    HistoryAt(c, p, visits, k);
    var before := Held(History(c, p, visits[..k]));
    HeldSound(c, p, visits[..k]);
    InvokeGood(visits[k], c, p, before);
    assert visits[..k + 1][..k] == visits[..k];
    assert Held(History(c, p, visits[..k + 1])) == After(History(c, p, visits)[k]);
  }

  predicate Moves(m: Moment) {
    m.outcome.Emit? || m.outcome.Continue?
  }

  function MovesIn(moments: seq<Moment>): nat {
    if moments == [] then 0
    else MovesIn(moments[..|moments| - 1]) + if Moves(moments[|moments| - 1]) then 1 else 0
  }

  /** At most three invocations move per change, plus the checkpoint; every
      other one completes or fails. No invocation exhausts its turn budget. */
  lemma {:induction false} RunsEnd(c: Config, p: Proposal, visits: seq<Visit>)
    ensures var h := History(c, p, visits);
      && Rank(p, Held(h)) >= 0
      && MovesIn(h) + Rank(p, Held(h)) <= 3 * |p.changes| + 1
    ensures forall k :: 0 <= k < |visits| ==>
      ReturnsWithin(Turner(visits[k].w, visits[k].conn, c, p, visits[k].result), Held(History(c, p, visits[..k])), 3)
  {
    hide Sound, TurnOf, GoodOutcome;
    if visits != [] {
      var n := |visits| - 1;
      RunsEnd(c, p, visits[..n]);
      var earlier := Held(History(c, p, visits[..n]));
      HeldSound(c, p, visits[..n]);
      HeldSound(c, p, visits);
      InvokeGood(visits[n], c, p, earlier);
      var h := History(c, p, visits);
      assert h[..|h| - 1] == History(c, p, visits[..n]);
      forall k | 0 <= k < |visits|
        ensures ReturnsWithin(Turner(visits[k].w, visits[k].conn, c, p, visits[k].result), Held(History(c, p, visits[..k])), 3)
      {
        HeldSound(c, p, visits[..k]);
        var cursor := Held(History(c, p, visits[..k]));
        WithinBudget(visits[k], c, p, cursor);
        WithinMore(Turner(visits[k].w, visits[k].conn, c, p, visits[k].result), cursor, TurnsLeft(cursor.stage), 3);
      }
    }
  }

  // ----- Every change starts as previewed -----

  /** The visit found the change exactly as previewed, with a provider write that can be built. */
  ghost predicate OpenedAt(v: Visit, c: Config, change: Change) {
    AsPreviewed(v.w, v.conn, c, change) == Ok(true) && ProviderWrite(v.w, c, change).Ok?
  }

  ghost predicate Opened(visits: seq<Visit>, c: Config, change: Change) {
    exists k :: 0 <= k < |visits| && OpenedAt(visits[k], c, change)
  }

  lemma OpenedLater(visits: seq<Visit>, n: nat, c: Config, change: Change)
    requires n <= |visits| && Opened(visits[..n], c, change)
    ensures Opened(visits, c, change)
  {
    var k :| 0 <= k < n && OpenedAt(visits[..n][k], c, change);
    assert visits[..n][k] == visits[k];
  }

  lemma StartOpens(v: Visit, c: Config, p: Proposal, cursor: Cursor)
    requires cursor.stage == Start && cursor.index < |p.changes|
    requires !Invoke(v.w, v.conn, c, p, cursor, v.result).Fail?
    ensures OpenedAt(v, c, p.changes[cursor.index])
  {
    hide AsPreviewed, ProviderWrite, LocalTurn, VerifyTurn, CreatedTurn, WrittenTurn;
    var turn := Turner(v.w, v.conn, c, p, v.result);
    assert turn(cursor) == StartTurn(v.w, v.conn, c, p.changes[cursor.index], cursor);
    AsPreviewedIsTrue(v, c, p.changes[cursor.index]);
  }

  lemma AsPreviewedIsTrue(v: Visit, c: Config, change: Change)
    ensures AsPreviewed(v.w, v.conn, c, change).Ok? ==> AsPreviewed(v.w, v.conn, c, change) == Ok(true)
  {
    hide ReadLocal, ReadRemote, CheckSchema;
  }

  /** Whatever happens in between, a change under way or finished was seen exactly
      as previewed when it was started. */
  lemma {:induction false} ChangesStartAsPreviewed(c: Config, p: Proposal, visits: seq<Visit>, i: nat)
    requires var cursor := Held(History(c, p, visits));
      i < |p.changes| && (i < cursor.index || (i == cursor.index && cursor.stage != Start))
    ensures Opened(visits, c, p.changes[i])
  {
    hide Invoke, OpenedAt, AlignedRecord;
    if visits != [] {
      var n := |visits| - 1;
      var earlier := Held(History(c, p, visits[..n]));
      HeldSound(c, p, visits[..n]);
      InvokeGood(visits[n], c, p, earlier);
      if i < earlier.index || (i == earlier.index && earlier.stage != Start) {
        ChangesStartAsPreviewed(c, p, visits[..n], i);
        OpenedLater(visits, n, c, p.changes[i]);
      } else {
        StartOpens(visits[n], c, p, earlier);
        assert OpenedAt(visits[n], c, p.changes[i]);
      }
    }
  }
}
