/** Runs without outside edits reach the end: a run that is not complete goes on. */
module NotionCompletion {
  import opened Wrappers
  import opened NotionModel
  import opened NotionRows
  import opened NotionSync
  import opened NotionSafety
  import opened NotionHost
  import opened NotionConvergence
  import opened NotionQuiet
  import opened NotionRuns

  /** The host's loop has no round left to make. */
  ghost predicate Stuck(c: Config, p: Proposal, s: Session) {
    forall t :: !QuietStep(c, p, s, t)
  }

  function Last(sessions: seq<Session>): Session
    requires sessions != []
  {
    sessions[|sessions| - 1]
  }

  // ----- There is always an unused id -----

  lemma {:induction false} LongerThanAll(used: set<string>) returns (length: nat)
    ensures forall s :: s in used ==> |s| < length
  {
    if used == {} {
      length := 0;
    } else {
      var s :| s in used;
      length := LongerThanAll(used - {s});
      length := if |s| < length then length else |s| + 1;
    }
  }

  lemma UnusedId(used: set<string>) returns (id: string)
    ensures id !in used && id != ""
  {
    var length := LongerThanAll(used);
    id := seq(length + 1, _ => 'x');
  }

  lemma UnusedSubject(used: set<Iri>) returns (subject: Iri)
    ensures subject !in used
  {
    var id := UnusedId(set s | s in used && s.Other? :: s.iri);
    subject := Other(id);
  }

  lemma EffectCarries(s: Session, effect: Effect, next: Cursor) returns (t: Session)
    requires effect.Checkpoint? ==> Acceptable(effect.records)
    ensures Carried(effect, s, next, t)
  {
    hide Recorded, Provided, AllApplied, ProviderReceipt, AtomicReceiptOf;
    match effect {
      case External(_, request) =>
        var minted := UnusedId(s.w.pages.Keys);
        t := Session(Provided(s.w, request, minted), s.conn, next, ProviderReceipt(s.w, request, minted), false);
      case Atomic(_, intents) =>
        var minted := UnusedSubject(s.w.resources.Keys);
        t := Session(AllApplied(s.w, intents, minted), s.conn, next, AtomicReceiptOf(intents, minted), false);
      case Checkpoint(records) =>
        t := Session(s.w, Connection(s.conn.revision + 1, Recorded(s.conn.records, records)), next, NoReceipt, false);
    }
  }

  /** Only a failure or a refused checkpoint can stop the host. */
  lemma GoesOn(c: Config, p: Proposal, s: Session) returns (t: Session)
    requires !s.complete
    requires var outcome := Invoke(s.w, s.conn, c, p, s.cursor, s.result);
      !outcome.Fail? && (outcome.Emit? && outcome.effect.Checkpoint? ==> Acceptable(outcome.effect.records))
    ensures QuietStep(c, p, s, t)
  {
    hide Invoke, Acceptable, Carried;
    match Invoke(s.w, s.conn, c, p, s.cursor, s.result) {
      case Complete => t := s.(complete := true);
      case Continue(next) => t := s.(cursor := next, result := NoReceipt);
      case Emit(effect, next) => t := EffectCarries(s, effect, next);
    }
  }

  /** A session on its way never gets stuck: no turn fails, the checkpoint is
      always accepted, and an unused id can always be minted. */
  lemma NeverStuck(c: Config, p: Proposal, s: Session)
    requires OnTrack(c, p, s)
    ensures Stuck(c, p, s) <==> s.complete
  {
    hide OnTrack, QuietStep, Invoke, Acceptable;
    if !s.complete {
      InvokeQuiet(c, p, s);
      var t := GoesOn(c, p, s);
    } else {
      CompleteIsStuck(c, p, s);
    }
  }

  lemma CompleteIsStuck(c: Config, p: Proposal, s: Session)
    requires s.complete
    ensures Stuck(c, p, s)
  {
  }

  // ----- Going on ends -----

  /** Where an invariant rules out getting stuck and a measure falls, every run
      is the beginning of a complete one. */
  lemma {:induction false} Completes(c: Config, p: Proposal, on: Session -> bool, left: Session -> nat, sessions: seq<Session>) returns (whole: seq<Session>)
    requires QuietRun(c, p, sessions) && on(Last(sessions))
    requires forall s :: on(s) && Stuck(c, p, s) ==> s.complete
    requires forall s, t :: on(s) && QuietStep(c, p, s, t) ==> on(t) && (t.complete || left(t) < left(s))
    ensures QuietRun(c, p, whole) && sessions <= whole && Last(whole).complete
    decreases left(Last(sessions))
  {
    hide QuietStep;
    var s := Last(sessions);
    whole := sessions;
    if !s.complete {
      assert !Stuck(c, p, s);
      var t :| QuietStep(c, p, s, t);
      whole := sessions + [t];
      if !t.complete {
        whole := Completes(c, p, on, left, sessions + [t]);
      }
    }
  }

  ghost function RankLeft(p: Proposal, s: Session): nat {
    if Rank(p, s.cursor) < 0 then 0 else Rank(p, s.cursor)
  }

  /** Both sides of every change show `desired`, each under the recorded ids. */
  ghost predicate Converged(c: Config, p: Proposal, s: Session)
    requires TitleField(c.fields).Some?
  {
    && |s.cursor.records| == |p.changes|
    && forall i :: 0 <= i < |p.changes| ==>
         Finished(s.w, s.conn, c, p.changes[i], s.cursor.records[i].remote, s.cursor.records[i].local)
  }

  /** Without outside edits an approved, writable proposal always goes through:
      a run has at most three states per change and two more after the first,
      no state of it fails, it stops nowhere but at completion, and there it has
      left both sides of every change at `desired`. */
  lemma QuietRunConverges(w: World, conn: Connection, c: Config, p: Proposal, sessions: seq<Session>)
    requires Ready(w, conn, c, p)
    requires QuietRun(c, p, sessions) && sessions[0] == Opening(w, conn)
    ensures var last := Last(sessions);
      && |sessions| <= 3 * |p.changes| + 3
      && !Invoke(last.w, last.conn, c, p, last.cursor, last.result).Fail?
      && (Stuck(c, p, last) <==> last.complete)
      && (Stuck(c, p, last) ==> Converged(c, p, last))
  {
    ReadyIsOnTrack(w, conn, c, p);
    RunStaysOnTrack(c, p, sessions);
    var last := Last(sessions);
    InvokeQuiet(c, p, last);
    hide Invoke, QuietStep;
    NeverStuck(c, p, last);
    if last.complete {
      FinalState(c, p, last);
    }
  }

  /** And every such run, wherever it is, is the beginning of a complete one. */
  lemma QuietRunCompletes(w: World, conn: Connection, c: Config, p: Proposal, sessions: seq<Session>) returns (whole: seq<Session>)
    requires Ready(w, conn, c, p)
    requires QuietRun(c, p, sessions) && sessions[0] == Opening(w, conn)
    ensures QuietRun(c, p, whole) && sessions <= whole && Last(whole).complete
  {
    hide Ready, OnTrack, QuietStep, Rank, QuietRun;
    ReadyIsOnTrack(w, conn, c, p);
    RunStaysOnTrack(c, p, sessions);
    forall s | OnTrack(c, p, s) ensures Stuck(c, p, s) <==> s.complete {
      NeverStuck(c, p, s);
    }
    forall s, t | OnTrack(c, p, s) && QuietStep(c, p, s, t)
      ensures OnTrack(c, p, t) && (t.complete || RankLeft(p, t) < RankLeft(p, s))
    {
      StepStaysOnTrack(c, p, s, t);
    }
    whole := Completes(c, p, s => OnTrack(c, p, s), s => RankLeft(p, s), sessions);
  }
}
