/** One OAuth connection row, refreshed by any number of concurrent callers. */
module RefreshLease {
  import opened Wrappers

  datatype Credential = ApiKey(key: string) | OAuth(access: string, refresh: Option<string>, expiresAt: Option<nat>)

  /** The row of one connection: the stored credential and the lease on refreshing it. */
  datatype Row = Row(envelope: Credential, leaseUntil: Option<nat>)

  /** The provider's answer to a refresh request. */
  datatype Answer = Refused | Granted(access: string, refresh: Option<string>, expiresIn: Option<nat>)

  const LEASE_SECONDS := 30
  const ATTEMPTS := 50

  predicate NeedsRefresh(credential: Credential, now: nat) {
    credential.OAuth? && credential.expiresAt.Some? && credential.expiresAt.value <= now + 30
  }

  // ----- The three statements on the row -----

  predicate LeaseFree(row: Row, now: nat) {
    row.leaseUntil.None? || row.leaseUntil.value <= now
  }

  function Claimed(row: Row, now: nat): Row {
    row.(leaseUntil := Some(now + LEASE_SECONDS))
  }

  function Released(row: Row): Row {
    row.(leaseUntil := None)
  }

  class Connection {
    var envelope: Credential
    var leaseUntil: Option<nat>

    ghost function Stored(): Row
      reads this
    {
      Row(envelope, leaseUntil)
    }

    constructor (credential: Credential)
      ensures Stored() == Row(credential, None)
    {
      envelope, leaseUntil := credential, None;
    }

    /** Takes the lease for 30 seconds if nobody holds it, and says whether it did. */
    method ClaimRefreshLease(now: nat) returns (claimed: bool)
      modifies this
      ensures claimed == LeaseFree(old(Stored()), now)
      ensures Stored() == if claimed then Claimed(old(Stored()), now) else old(Stored())
    {
      claimed := leaseUntil.None? || leaseUntil.value <= now;
      if claimed {
        leaseUntil := Some(now + LEASE_SECONDS);
      }
    }

    /** Stores a refreshed credential and gives up the lease, whoever holds it. */
    method StoreRefreshedConnection(credential: Credential)
      modifies this
      ensures Stored() == Row(credential, None)
    {
      envelope := credential;
      leaseUntil := None;
    }

    /** Gives up the lease and leaves the stored credential as it was. */
    method ReleaseRefreshLease()
      modifies this
      ensures Stored() == Released(old(Stored()))
    {
      leaseUntil := None;
    }
  }

  /** The credential after the provider granted new tokens: a refresh token it does
      not replace is kept. */
  function Refreshed(credential: Credential, answer: Answer, now: nat): Credential
    requires credential.OAuth? && answer.Granted?
  {
    OAuth(answer.access,
          if answer.refresh.Some? then answer.refresh else credential.refresh,
          if answer.expiresIn.Some? then Some(now + answer.expiresIn.value) else None)
  }

  // ----- Callers -----

  /** Where a caller stands in its refresh loop. `InFlight` names its entry in `spends`. */
  datatype Phase =
    | Looping(attempt: nat)
    | Claiming(attempt: nat)
    | Waiting(attempt: nat)
    | Reloading
    | Sending
    | InFlight(entry: nat)
    | Storing
    | Releasing(ok: bool)
    | Done(ok: bool)

  /** `version` says which stored credential the caller last read, `since` the one
      stored when its call began, `deadline` when the lease it claimed ends. */
  datatype Caller = Caller(phase: Phase, credential: Credential, since: nat, version: nat, deadline: nat)

  datatype Outcome = Pending | Failed | Succeeded

  /** One refresh token sent to the provider, and the stored version it came from. */
  datatype Spend = Spend(version: nat, token: string, outcome: Outcome)

  /** `versions` lists every credential the row has held, the present one last. */
  datatype State = State(now: nat, row: Row, callers: map<nat, Caller>, versions: seq<Credential>, spends: seq<Spend>)

  datatype Event =
    | Tick(seconds: nat)
    | Begin(caller: nat)
    | Look(caller: nat)
    | Claim(caller: nat)
    | Wake(caller: nat)
    | Reload(caller: nat)
    | Send(caller: nat)
    | Answered(caller: nat, answer: Answer)
    | Store(caller: nat)
    | Release(caller: nat)
    | ReadFails(caller: nat)
    | ReloadFails(caller: nat)
    | StoreFails(caller: nat)
    | ReleaseFails(caller: nat)

  function Start(credential: Credential): State {
    State(0, Row(credential, None), map[], [credential], [])
  }

  function Newest(s: State): int {
    |s.versions| - 1
  }

  function With(s: State, c: nat, caller: Caller): State {
    s.(callers := s.callers[c := caller])
  }

  /** After claiming and rereading: refresh, or give the lease back. */
  function Decide(caller: Caller, now: nat): Caller {
    caller.(phase := if NeedsRefresh(caller.credential, now) then Sending else Releasing(true))
  }

  /** One event: each statement on the row, each call to the provider and each look at
      the clock is one step. `None` when the event cannot happen here. */
  function Next(s: State, e: Event): Option<State> {
    if e.Tick? then Some(s.(now := s.now + e.seconds))
    else if e.Begin? then
      if e.caller in s.callers || s.versions == [] then None
      else Some(With(s, e.caller, Caller(Looping(0), s.row.envelope, Newest(s), Newest(s), 0)))
    else if e.caller !in s.callers then None
    else NextOf(s, e, e.caller, s.callers[e.caller])
  }

  function NextOf(s: State, e: Event, c: nat, caller: Caller): Option<State>
    requires !e.Tick? && !e.Begin?
  {
    match caller.phase
    case Looping(n) =>
      if !e.Look? then None
      else if n >= ATTEMPTS then Some(With(s, c, caller.(phase := Done(false))))
      else if NeedsRefresh(caller.credential, s.now) then Some(With(s, c, caller.(phase := Claiming(n))))
      else Some(With(s, c, caller.(phase := Done(true))))
    case Claiming(n) =>
      if e.ReadFails? then Some(With(s, c, caller.(phase := Done(false))))
      else if !e.Claim? then None
      else if LeaseFree(s.row, s.now) then
        Some(With(s, c, caller.(phase := Reloading, deadline := s.now + LEASE_SECONDS)).(row := Claimed(s.row, s.now)))
      else Some(With(s, c, caller.(phase := Waiting(n))))
    case Waiting(n) =>
      if e.ReadFails? then Some(With(s, c, caller.(phase := Done(false))))
      else if !e.Wake? || s.versions == [] then None
      else Some(With(s, c, caller.(phase := Looping(n + 1), credential := s.row.envelope, version := Newest(s))))
    case Reloading =>
      if e.ReloadFails? then Some(With(s, c, Decide(caller, s.now)))
      else if !e.Reload? || s.versions == [] then None
      else Some(With(s, c, Decide(caller.(credential := s.row.envelope, version := Newest(s)), s.now)))
    case Sending =>
      if !e.Send? || caller.credential.ApiKey? then None
      else if caller.credential.refresh.None? then Some(With(s, c, caller.(phase := Releasing(false))))
      else Some(With(s, c, caller.(phase := InFlight(|s.spends|))).(spends := s.spends + [Spend(caller.version, caller.credential.refresh.value, Pending)]))
    case InFlight(k) =>
      if !e.Answered? || caller.credential.ApiKey? || k >= |s.spends| then None
      else if e.answer.Refused? then
        Some(With(s, c, caller.(phase := Releasing(false))).(spends := s.spends[k := s.spends[k].(outcome := Failed)]))
      else
        Some(With(s, c, caller.(phase := Storing, credential := Refreshed(caller.credential, e.answer, s.now)))
             .(spends := s.spends[k := s.spends[k].(outcome := Succeeded)]))
    case Storing =>
      if e.StoreFails? then Some(With(s, c, caller.(phase := Done(false))))
      else if !e.Store? then None
      else Some(With(s, c, caller.(phase := Done(true), version := |s.versions|))
                .(row := Row(caller.credential, None), versions := s.versions + [caller.credential]))
    case Releasing(ok) =>
      if e.ReleaseFails? then Some(With(s, c, caller.(phase := Done(ok))))
      else if !e.Release? then None
      else Some(With(s, c, caller.(phase := Done(ok))).(row := Released(s.row)))
    case Done(_) => None
  }

  // ----- Runs -----

  /** A run from a stored credential: consecutive states with the event between them. */
  ghost predicate Run(states: seq<State>, events: seq<Event>) {
    && |states| == |events| + 1
    && (exists credential :: states[0] == Start(credential))
    && forall i :: 0 <= i < |events| ==> Next(states[i], events[i]) == Some(states[i + 1])
  }

  /** From its claim until it stores or releases, a caller is refreshing. */
  predicate Refreshing(caller: Caller) {
    caller.phase.Reloading? || caller.phase.Sending? || caller.phase.InFlight? || caller.phase.Storing? || caller.phase.Releasing?
  }

  /** No caller is still refreshing when the lease it claimed lapses. */
  ghost predicate WithinLease(s: State) {
    forall c :: c in s.callers && Refreshing(s.callers[c]) ==> s.now < s.callers[c].deadline
  }

  /** Holders finish before their lease lapses, their reread succeeds and what they
      were granted gets stored. */
  ghost predicate Prompt(states: seq<State>, events: seq<Event>) {
    && (forall i :: 0 <= i < |states| ==> WithinLease(states[i]))
    && forall i :: 0 <= i < |events| ==> !events[i].ReloadFails? && !events[i].StoreFails?
  }

  /** Every granted refresh token is new: neither stored nor sent before. */
  ghost predicate Rotates(s: State, e: Event) {
    e.Answered? && e.answer.Granted? ==>
      && e.answer.refresh.Some?
      && forall k :: 0 <= k < |s.versions| && s.versions[k].OAuth? ==> s.versions[k].refresh != e.answer.refresh
  }

  ghost predicate Rotating(states: seq<State>, events: seq<Event>) {
    |states| == |events| + 1 && forall i :: 0 <= i < |events| ==> Rotates(states[i], events[i])
  }

  // ----- What holds in every run -----

  /** The versions a caller may hold were stored while it was running. */
  ghost predicate Dated(s: State, caller: Caller) {
    caller.since <= caller.version < |s.versions| && (!caller.phase.Storing? && caller.phase != Done(false) ==> s.versions[caller.version] == caller.credential)
  }

  ghost predicate Recorded(s: State) {
    && |s.versions| > 0 && s.versions[|s.versions| - 1] == s.row.envelope
    && forall c :: c in s.callers ==> Dated(s, s.callers[c])
  }

  lemma StepDates(s: State, e: Event, c: nat)
    requires Recorded(s) && Next(s, e).Some? && c in Next(s, e).value.callers
    ensures Dated(Next(s, e).value, Next(s, e).value.callers[c])
  {
    assert c in s.callers ==> Dated(s, s.callers[c]);
    hide LeaseFree, NeedsRefresh;
  }

  lemma StepKeepsRecorded(s: State, e: Event)
    requires Recorded(s) && Next(s, e).Some?
    ensures Recorded(Next(s, e).value)
  {
    var t := Next(s, e).value;
    assert |t.versions| > 0 && t.versions[|t.versions| - 1] == t.row.envelope;
    hide Next, NextOf, Dated;
    forall c | c in t.callers
      ensures Dated(t, t.callers[c])
    {
      StepDates(s, e, c);
    }
  }

  lemma {:induction false} RunRecorded(states: seq<State>, events: seq<Event>, i: nat)
    requires Run(states, events) && i < |states|
    ensures Recorded(states[i])
    decreases i
  {
    if i > 0 {
      RunRecorded(states, events, i - 1);
      assert Next(states[i - 1], events[i - 1]) == Some(states[i - 1 + 1]);
      StepKeepsRecorded(states[i - 1], events[i - 1]);
    }
  }

  /** Whatever fails and however late, a caller that returns Ok holds a credential the
      row held at some point during its call. */
  lemma OkHoldsStored(states: seq<State>, events: seq<Event>, i: nat, c: nat)
    requires Run(states, events) && i < |states| && c in states[i].callers && states[i].callers[c].phase == Done(true)
    ensures var caller := states[i].callers[c];
      exists k :: caller.since <= k < |states[i].versions| && states[i].versions[k] == caller.credential
  {
    RunRecorded(states, events, i);
    assert Dated(states[i], states[i].callers[c]);
  }

  // ----- What holds while holders are prompt -----

  /** A holder is alone and owns the lease; once it has reread, it holds the newest version. */
  ghost predicate Exclusive(s: State) {
    && (forall c, d :: c in s.callers && d in s.callers && Refreshing(s.callers[c]) && Refreshing(s.callers[d]) ==> c == d)
    && forall c :: c in s.callers && Refreshing(s.callers[c]) ==>
         && s.row.leaseUntil == Some(s.callers[c].deadline)
         && (!s.callers[c].phase.Reloading? ==> s.callers[c].version == Newest(s))
  }

  /** A spend of the newest version that has not failed belongs to the present holder. */
  ghost predicate Owned(s: State, k: nat)
    requires k < |s.spends|
  {
    s.spends[k].outcome == Failed || s.spends[k].version < Newest(s)
    || exists c :: c in s.callers && (if s.spends[k].outcome == Pending then s.callers[c].phase == InFlight(k) else s.callers[c].phase == Storing)
  }

  predicate CurrentSpend(s: State, spend: Spend) {
    spend.version == Newest(s) && spend.outcome == Pending
  }

  ghost predicate Frugal(s: State) {
    && (forall k :: 0 <= k < |s.spends| ==> s.spends[k].version <= Newest(s) && Owned(s, k))
    && (forall j, k :: 0 <= j < k < |s.spends| && s.spends[j].version == s.spends[k].version ==> s.spends[j].outcome == Failed)
    && forall c :: c in s.callers && s.callers[c].phase.InFlight? ==>
         s.callers[c].phase.entry < |s.spends| && CurrentSpend(s, s.spends[s.callers[c].phase.entry])
  }

  ghost predicate Acts(s: State, e: Event) {
    !e.Tick? && !e.Begin? && Next(s, e).Some?
  }

  /** A caller that acts changes only itself; only claiming makes it a holder, and a
      holder that stays one leaves the row alone. */
  lemma ActsAlone(s: State, e: Event)
    requires Acts(s, e)
    ensures var t, c := Next(s, e).value, e.caller;
      && c in s.callers && c in t.callers && t.callers == s.callers[c := t.callers[c]] && t.now == s.now
      && var a, b := s.callers[c], t.callers[c];
         && (Refreshing(a) && Refreshing(b) ==> t.row == s.row && t.versions == s.versions && b.deadline == a.deadline && !b.phase.Reloading?)
         && (Refreshing(a) && Refreshing(b) ==> b.version == if a.phase.Reloading? && !e.ReloadFails? then Newest(s) else a.version)
         && (!Refreshing(a) && Refreshing(b) ==> LeaseFree(s.row, s.now) && b.phase.Reloading? && t.row.leaseUntil == Some(b.deadline) && t.versions == s.versions)
         && (!Refreshing(a) && !Refreshing(b) ==> t.row == s.row && t.versions == s.versions)
  {
  }

  /** How sent tokens and stored versions move with the phase of the caller that acts. */
  lemma ActsOnSpends(s: State, e: Event)
    requires Acts(s, e)
    ensures var t, c := Next(s, e).value, e.caller;
      && c in s.callers && c in t.callers
      && var a, b := s.callers[c], t.callers[c];
         && (if a.phase.Storing? && !e.StoreFails? then t.versions == s.versions + [a.credential] && !Refreshing(b) else t.versions == s.versions)
         && (b.phase.InFlight? ==> a.phase.Sending? && b.phase.entry == |s.spends|)
         && (if a.phase.Sending? && b.phase.InFlight? then
               a.credential.OAuth? && a.credential.refresh.Some? && t.spends == s.spends + [Spend(a.version, a.credential.refresh.value, Pending)]
             else if a.phase.InFlight? then
               && a.phase.entry < |s.spends| && !b.phase.InFlight?
               && t.spends == s.spends[a.phase.entry := s.spends[a.phase.entry].(outcome := if b.phase.Storing? then Succeeded else Failed)]
             else t.spends == s.spends && !b.phase.Storing?)
  {
  }

  lemma StepKeepsExclusive(s: State, e: Event)
    requires Exclusive(s) && WithinLease(s) && Next(s, e).Some? && !e.ReloadFails?
    ensures Exclusive(Next(s, e).value)
  {
    if Acts(s, e) {
      ActsAlone(s, e);
      hide Next, NextOf;
      var c := e.caller;
      assert LeaseFree(s.row, s.now) ==> forall d :: d in s.callers ==> !Refreshing(s.callers[d]);
      assert !Refreshing(s.callers[c]) && !Refreshing(Next(s, e).value.callers[c]) ==> Next(s, e).value.row == s.row;
    } else {
      hide NextOf;
    }
  }

  lemma StepKeepsOwned(s: State, e: Event, k: nat)
    requires Exclusive(s) && Frugal(s) && Acts(s, e) && !e.StoreFails? && k < |Next(s, e).value.spends|
    ensures var t := Next(s, e).value; t.spends[k].version <= Newest(t) && Owned(t, k)
  {
    ActsAlone(s, e);
    ActsOnSpends(s, e);
    hide Next, NextOf;
    var t, c := Next(s, e).value, e.caller;
    if k < |s.spends| {
      assert Owned(s, k);
      if d :| d in s.callers && (if s.spends[k].outcome == Pending then s.callers[d].phase == InFlight(k) else s.callers[d].phase == Storing) {
        assert d in t.callers;
      }
    } else {
      assert t.callers[c].phase == InFlight(k);
    }
  }

  lemma StepKeepsOrder(s: State, e: Event, j: nat, k: nat)
    requires Exclusive(s) && Frugal(s) && Acts(s, e)
    requires var t := Next(s, e).value; j < k < |t.spends| && t.spends[j].version == t.spends[k].version
    ensures Next(s, e).value.spends[j].outcome == Failed
  {
    ActsAlone(s, e);
    ActsOnSpends(s, e);
    hide Next, NextOf;
    var t, c := Next(s, e).value, e.caller;
    if k == |s.spends| {
      assert Owned(s, j);
      assert Refreshing(s.callers[c]);
    } else {
      assert s.spends[j].outcome == Failed;
    }
  }

  lemma StepKeepsInFlight(s: State, e: Event, d: nat)
    requires Exclusive(s) && Frugal(s) && Acts(s, e)
    requires d in Next(s, e).value.callers && Next(s, e).value.callers[d].phase.InFlight?
    ensures var t := Next(s, e).value; t.callers[d].phase.entry < |t.spends| && CurrentSpend(t, t.spends[t.callers[d].phase.entry])
  {
    ActsAlone(s, e);
    ActsOnSpends(s, e);
    hide Next, NextOf;
    var c := e.caller;
    if d != c {
      assert Refreshing(s.callers[d]);
    }
  }

  lemma StepKeepsFrugal(s: State, e: Event)
    requires Exclusive(s) && Frugal(s) && Next(s, e).Some? && !e.StoreFails?
    ensures Frugal(Next(s, e).value)
  {
    var t := Next(s, e).value;
    if Acts(s, e) {
      hide Next, NextOf, Owned, Exclusive;
      forall k | 0 <= k < |t.spends|
        ensures t.spends[k].version <= Newest(t) && Owned(t, k)
      {
        StepKeepsOwned(s, e, k);
      }
      forall j, k | 0 <= j < k < |t.spends| && t.spends[j].version == t.spends[k].version
        ensures t.spends[j].outcome == Failed
      {
        StepKeepsOrder(s, e, j, k);
      }
      forall c | c in t.callers && t.callers[c].phase.InFlight?
        ensures t.callers[c].phase.entry < |t.spends| && CurrentSpend(t, t.spends[t.callers[c].phase.entry])
      {
        StepKeepsInFlight(s, e, c);
      }
    } else {
      hide NextOf;
      assert t.spends == s.spends && t.versions == s.versions;
      assert forall c :: c in s.callers ==> c in t.callers && t.callers[c] == s.callers[c];
      assert forall k :: 0 <= k < |t.spends| ==> Owned(s, k);
      assert forall k :: 0 <= k < |t.spends| ==> Owned(t, k);
    }
  }

  lemma {:induction false} PromptInvariant(states: seq<State>, events: seq<Event>, i: nat)
    requires Run(states, events) && Prompt(states, events) && i < |states|
    ensures Exclusive(states[i]) && Frugal(states[i])
    decreases i
  {
    hide Next, Exclusive, Frugal, WithinLease;
    if i == 0 {
      var credential :| states[0] == Start(credential);
      StartsClean(credential);
    } else {
      PromptInvariant(states, events, i - 1);
      assert Next(states[i - 1], events[i - 1]) == Some(states[i - 1 + 1]);
      StepKeepsExclusive(states[i - 1], events[i - 1]);
      StepKeepsFrugal(states[i - 1], events[i - 1]);
    }
  }

  lemma StartsClean(credential: Credential)
    ensures Exclusive(Start(credential)) && Frugal(Start(credential))
  {
  }

  /** While holders are prompt, at most one caller at a time is refreshing. */
  lemma OneRefresher(states: seq<State>, events: seq<Event>, i: nat, c: nat, d: nat)
    requires Run(states, events) && Prompt(states, events) && i < |states|
    requires c in states[i].callers && d in states[i].callers && Refreshing(states[i].callers[c]) && Refreshing(states[i].callers[d])
    ensures c == d
  {
    PromptInvariant(states, events, i);
  }

  /** While holders are prompt, a stored credential's refresh token is sent again only
      after every earlier sending of it has failed. */
  lemma VersionSpentOnce(states: seq<State>, events: seq<Event>, i: nat, j: nat, k: nat)
    requires Run(states, events) && Prompt(states, events) && i < |states|
    requires j < k < |states[i].spends| && states[i].spends[j].version == states[i].spends[k].version
    ensures states[i].spends[j].outcome == Failed
  {
    PromptInvariant(states, events, i);
  }

  // ----- Tokens, when the provider rotates them -----

  predicate SameToken(a: Credential, b: Credential) {
    a.OAuth? && b.OAuth? && a.refresh.Some? && a.refresh == b.refresh
  }

  ghost predicate Unstored(s: State, credential: Credential) {
    forall k :: 0 <= k < |s.versions| ==> !SameToken(s.versions[k], credential)
  }

  ghost predicate Rotated(s: State) {
    && (forall j, k :: 0 <= j < k < |s.versions| ==> !SameToken(s.versions[j], s.versions[k]))
    && (forall c :: c in s.callers && s.callers[c].phase.Storing? ==> Unstored(s, s.callers[c].credential))
    && forall k :: 0 <= k < |s.spends| ==> s.spends[k].version < |s.versions| && TokenOf(s.versions[s.spends[k].version], s.spends[k].token)
  }

  predicate TokenOf(credential: Credential, token: string) {
    credential.OAuth? && credential.refresh == Some(token)
  }

  /** What a granted answer leaves in the caller's hands. */
  lemma GrantIsUnstored(s: State, e: Event)
    requires Acts(s, e) && Rotates(s, e) && e.caller in s.callers && s.callers[e.caller].phase.InFlight?
    ensures var t := Next(s, e).value; e.caller in t.callers && (t.callers[e.caller].phase.Storing? ==> Unstored(s, t.callers[e.caller].credential))
  {
  }

  lemma StepKeepsRotated(s: State, e: Event)
    requires Recorded(s) && Exclusive(s) && Rotated(s) && Next(s, e).Some? && Rotates(s, e)
    ensures Rotated(Next(s, e).value)
  {
    if Acts(s, e) {
      var t, c := Next(s, e).value, e.caller;
      ActsAlone(s, e);
      ActsOnSpends(s, e);
      if s.callers[c].phase.InFlight? {
        GrantIsUnstored(s, e);
      }
      assert Dated(s, s.callers[c]);
      assert t.callers[c].phase.Storing? ==> s.callers[c].phase.InFlight?;
      hide Next, NextOf, Rotates, Dated;
      forall d | d in t.callers && t.callers[d].phase.Storing?
        ensures Unstored(t, t.callers[d].credential)
      {
        if d != c {
          assert Refreshing(s.callers[d]) && Unstored(s, s.callers[d].credential);
        }
      }
    } else {
      hide NextOf;
      assert forall c :: c in s.callers ==> c in Next(s, e).value.callers && Next(s, e).value.callers[c] == s.callers[c];
      assert forall c :: c in s.callers && s.callers[c].phase.Storing? ==> Unstored(Next(s, e).value, s.callers[c].credential);
    }
  }

  lemma {:induction false} RotationInvariant(states: seq<State>, events: seq<Event>, i: nat)
    requires Run(states, events) && Prompt(states, events) && Rotating(states, events) && i < |states|
    ensures Rotated(states[i])
    decreases i
  {
    hide Next, Exclusive, Frugal, WithinLease, Recorded, Rotated, Rotates;
    if i == 0 {
      var credential :| states[0] == Start(credential);
      StartsRotated(credential);
    } else {
      RotationInvariant(states, events, i - 1);
      RunRecorded(states, events, i - 1);
      PromptInvariant(states, events, i - 1);
      assert Next(states[i - 1], events[i - 1]) == Some(states[i - 1 + 1]);
      StepKeepsRotated(states[i - 1], events[i - 1]);
    }
  }

  lemma StartsRotated(credential: Credential)
    ensures Rotated(Start(credential))
  {
  }

  /** With prompt holders and a provider that rotates refresh tokens, no token is sent
      again unless every earlier sending of it failed. */
  lemma TokenSpentOnce(states: seq<State>, events: seq<Event>, i: nat, j: nat, k: nat)
    requires Run(states, events) && Prompt(states, events) && Rotating(states, events) && i < |states|
    requires j < k < |states[i].spends| && states[i].spends[j].token == states[i].spends[k].token
    ensures states[i].spends[j].outcome == Failed
  {
    RotationInvariant(states, events, i);
    var s := states[i];
    var a, b := s.spends[j].version, s.spends[k].version;
    assert SameToken(s.versions[a], s.versions[b]);
    hide Rotated, Run, Prompt, Rotating;
    assert a == b by {
      RotatedApart(s, a, b);
    }
    VersionSpentOnce(states, events, i, j, k);
  }

  lemma RotatedApart(s: State, a: nat, b: nat)
    requires Rotated(s) && a < |s.versions| && b < |s.versions| && SameToken(s.versions[a], s.versions[b])
    ensures a == b
  {
    assert SameToken(s.versions[b], s.versions[a]);
  }

  // ----- Why both conditions are needed -----

  const STALE := OAuth("old", Some("once"), Some(0))

  /** The one thing that goes wrong in a run. */
  datatype Mishap = LeaseLapses | RereadFails | StoringFails

  /** A run from a stale credential to `s` in which nothing goes wrong but `mishap`. */
  ghost predicate Reaches(s: State, mishap: Mishap) {
    exists states, events :: RunsTo(states, events, s, mishap)
  }

  ghost predicate RunsTo(states: seq<State>, events: seq<Event>, s: State, mishap: Mishap) {
    && Run(states, events) && states[|states| - 1] == s
    && (mishap.LeaseLapses? || forall i :: 0 <= i < |states| ==> WithinLease(states[i]))
    && forall i :: 0 <= i < |events| ==> Spared(events[i], mishap)
  }

  predicate Spared(e: Event, mishap: Mishap) {
    !e.ReadFails? && !e.ReleaseFails? && (e.ReloadFails? ==> mishap.RereadFails?) && (e.StoreFails? ==> mishap.StoringFails?)
  }

  lemma ReachesStart(mishap: Mishap)
    ensures Reaches(Start(STALE), mishap)
  {
    assert Start(STALE) == [Start(STALE)][0];
    assert RunsTo([Start(STALE)], [], Start(STALE), mishap);
  }

  lemma ReachesNext(s: State, e: Event, t: State, mishap: Mishap)
    requires Reaches(s, mishap) && Next(s, e) == Some(t) && Spared(e, mishap) && (mishap.LeaseLapses? || WithinLease(t))
    ensures Reaches(t, mishap)
  {
    hide Next, WithinLease, Spared;
    var states, events :| RunsTo(states, events, s, mishap);
    var credential :| states[0] == Start(credential);
    assert (states + [t])[0] == Start(credential);
    assert RunsTo(states + [t], events + [e], t, mishap);
  }

  /** The first holder has sent its token and waits for the answer. */
  function FirstInFlight(others: map<nat, Caller>): State {
    State(0, Row(STALE, Some(30)), others[1 := Caller(InFlight(0), STALE, 0, 0, 30)], [STALE], [Spend(0, "once", Pending)])
  }

  predicate Idle(others: map<nat, Caller>) {
    forall c :: c in others ==> !Refreshing(others[c])
  }

  lemma FirstMoves(s: State, others: map<nat, Caller>, e: Event, t: State, mishap: Mishap)
    requires Idle(others) && 1 in t.callers && t.callers == others[1 := t.callers[1]] && t.now < 30
    requires Refreshing(t.callers[1]) ==> t.callers[1].deadline == 30
    requires Reaches(s, mishap) && Next(s, e) == Some(t) && Spared(e, mishap)
    ensures Reaches(t, mishap)
  {
    hide Reaches, Next;
    ReachesNext(s, e, t, mishap);
  }

  lemma FirstSends(s: State, others: map<nat, Caller>, mishap: Mishap)
    requires s == State(0, Row(STALE, None), others[1 := Caller(Looping(0), STALE, 0, 0, 0)], [STALE], []) && Reaches(s, mishap)
    requires Idle(others)
    ensures Reaches(FirstInFlight(others), mishap)
  {
    hide Reaches, Idle, WithinLease;
    var row := Row(STALE, Some(30));
    var claiming := s.(callers := others[1 := Caller(Claiming(0), STALE, 0, 0, 0)]);
    assert claiming.callers == s.callers[1 := claiming.callers[1]];
    FirstMoves(s, others, Look(1), claiming, mishap);
    var reloading := claiming.(row := row, callers := others[1 := Caller(Reloading, STALE, 0, 0, 30)]);
    assert reloading.callers == claiming.callers[1 := reloading.callers[1]];
    FirstMoves(claiming, others, Claim(1), reloading, mishap);
    FirstRereads(reloading, others, mishap);
  }

  lemma FirstRereads(reloading: State, others: map<nat, Caller>, mishap: Mishap)
    requires reloading == State(0, Row(STALE, Some(30)), others[1 := Caller(Reloading, STALE, 0, 0, 30)], [STALE], [])
    requires Reaches(reloading, mishap) && Idle(others)
    ensures Reaches(FirstInFlight(others), mishap)
  {
    hide Reaches, Idle, WithinLease;
    var sending := reloading.(callers := others[1 := Caller(Sending, STALE, 0, 0, 30)]);
    assert sending.callers == reloading.callers[1 := sending.callers[1]];
    FirstMoves(reloading, others, Reload(1), sending, mishap);
    var t := FirstInFlight(others);
    assert t.callers == sending.callers[1 := t.callers[1]];
    assert sending.spends + [Spend(0, "once", Pending)] == t.spends;
    FirstMoves(sending, others, Send(1), t, mishap);
  }

  /** Once the lease has lapsed, a second caller claims it. */
  lemma SecondClaims(late: State, first: map<nat, Caller>, spend: Spend, mishap: Mishap)
    requires late == State(30, Row(STALE, Some(30)), first, [STALE], [spend]) && 2 !in first && Reaches(late, mishap)
    requires mishap.LeaseLapses? || Idle(first)
    ensures Reaches(State(30, Row(STALE, Some(60)), first[2 := Caller(Reloading, STALE, 0, 0, 60)], [STALE], [spend]), mishap)
  {
    hide Reaches;
    var looping := late.(callers := first[2 := Caller(Looping(0), STALE, 0, 0, 0)]);
    ReachesNext(late, Begin(2), looping, mishap);
    var claiming := looping.(callers := first[2 := Caller(Claiming(0), STALE, 0, 0, 0)]);
    assert claiming.callers == looping.callers[2 := claiming.callers[2]];
    ReachesNext(looping, Look(2), claiming, mishap);
    var reloading := claiming.(row := Row(STALE, Some(60)), callers := first[2 := Caller(Reloading, STALE, 0, 0, 60)]);
    assert reloading.callers == claiming.callers[2 := reloading.callers[2]];
    ReachesNext(claiming, Claim(2), reloading, mishap);
  }

  /** Then it rereads the row and sends the token it finds there. */
  lemma SecondSends(late: State, first: map<nat, Caller>, spend: Spend, mishap: Mishap) returns (s: State)
    requires late == State(30, Row(STALE, Some(30)), first, [STALE], [spend]) && 2 !in first && Reaches(late, mishap)
    requires mishap.LeaseLapses? || Idle(first)
    ensures Reaches(s, mishap) && s.spends == [spend, Spend(0, "once", Pending)]
  {
    hide Reaches;
    SecondClaims(late, first, spend, mishap);
    var reloading := State(30, Row(STALE, Some(60)), first[2 := Caller(Reloading, STALE, 0, 0, 60)], [STALE], [spend]);
    var sending := reloading.(callers := first[2 := Caller(Sending, STALE, 0, 0, 60)]);
    assert sending.callers == reloading.callers[2 := sending.callers[2]];
    ReachesNext(reloading, Reload(2), sending, mishap);
    s := sending.(callers := first[2 := Caller(InFlight(1), STALE, 0, 0, 60)], spends := [spend, Spend(0, "once", Pending)]);
    assert s.callers == sending.callers[2 := s.callers[2]];
    assert sending.spends + [Spend(0, "once", Pending)] == s.spends;
    ReachesNext(sending, Send(2), s, mishap);
  }

  lemma FirstBegins(mishap: Mishap)
    ensures Reaches(FirstInFlight(map[]), mishap)
  {
    hide Reaches;
    ReachesStart(mishap);
    var s := Start(STALE).(callers := map[1 := Caller(Looping(0), STALE, 0, 0, 0)]);
    ReachesNext(Start(STALE), Begin(1), s, mishap);
    assert s.callers == map[][1 := Caller(Looping(0), STALE, 0, 0, 0)];
    FirstSends(s, map[], mishap);
  }

  /** A holder slower than its lease is joined by a second one, and both send the
      same refresh token, although no step of the run fails. */
  lemma LapsedLeaseSpendsTwice() returns (s: State)
    ensures Reaches(s, LeaseLapses) && s.spends == [Spend(0, "once", Pending), Spend(0, "once", Pending)]
  {
    hide Reaches;
    FirstBegins(LeaseLapses);
    var late := FirstInFlight(map[]).(now := 30);
    ReachesNext(FirstInFlight(map[]), Tick(30), late, LeaseLapses);
    s := SecondSends(late, late.callers, Spend(0, "once", Pending), LeaseLapses);
  }

  /** A holder that cannot store what it was granted leaves the exchanged token in
      the row, and the next caller sends it again, although every holder finishes
      within its lease and every reread succeeds. */
  lemma FailedStoreSpendsAgain() returns (s: State)
    ensures Reaches(s, StoringFails) && s.spends == [Spend(0, "once", Succeeded), Spend(0, "once", Pending)]
  {
    hide Reaches;
    FirstBegins(StoringFails);
    var granted := OAuth("new", Some("twice"), Some(3600));
    var flying := FirstInFlight(map[]);
    var storing := flying.(callers := map[1 := Caller(Storing, granted, 0, 0, 30)], spends := [Spend(0, "once", Succeeded)]);
    assert storing.callers == flying.callers[1 := storing.callers[1]];
    assert flying.spends[0 := flying.spends[0].(outcome := Succeeded)] == storing.spends;
    ReachesNext(flying, Answered(1, Granted("new", Some("twice"), Some(3600))), storing, StoringFails);
    var lost := storing.(callers := map[1 := Caller(Done(false), granted, 0, 0, 30)]);
    assert lost.callers == storing.callers[1 := lost.callers[1]];
    ReachesNext(storing, StoreFails(1), lost, StoringFails);
    ReachesNext(lost, Tick(30), lost.(now := 30), StoringFails);
    s := SecondSends(lost.(now := 30), lost.callers, Spend(0, "once", Succeeded), StoringFails);
  }

  /** A holder that cannot reread the row sends a token that was already exchanged,
      although no lease lapses and everything granted is stored. */
  lemma FailedReloadSpendsAgain() returns (s: State)
    ensures Reaches(s, RereadFails) && s.spends == [Spend(0, "once", Succeeded), Spend(0, "once", Pending)]
  {
    hide Reaches;
    var idle := Caller(Looping(0), STALE, 0, 0, 0);
    var behind := Caller(Claiming(0), STALE, 0, 0, 0);
    ReachesStart(RereadFails);
    s := Start(STALE).(callers := map[2 := idle]);
    ReachesNext(Start(STALE), Begin(2), s, RereadFails);
    var looked := Start(STALE).(callers := map[2 := behind]);
    assert looked.callers == s.callers[2 := behind];
    ReachesNext(s, Look(2), looked, RereadFails);
    s := looked.(callers := map[2 := behind][1 := idle]);
    ReachesNext(looked, Begin(1), s, RereadFails);
    FirstSends(s, map[2 := behind], RereadFails);
    var granted := OAuth("new", Some("twice"), Some(3600));
    var flying := FirstInFlight(map[2 := behind]);
    var storing := flying.(callers := map[2 := behind][1 := Caller(Storing, granted, 0, 0, 30)], spends := [Spend(0, "once", Succeeded)]);
    assert storing.callers == flying.callers[1 := storing.callers[1]];
    assert flying.spends[0 := flying.spends[0].(outcome := Succeeded)] == storing.spends;
    ReachesNext(flying, Answered(1, Granted("new", Some("twice"), Some(3600))), storing, RereadFails);
    var done := Caller(Done(true), granted, 0, 1, 30);
    var stored := storing.(row := Row(granted, None), callers := map[2 := behind][1 := done], versions := [STALE, granted]);
    assert stored.callers == storing.callers[1 := done];
    assert storing.versions + [granted] == stored.versions;
    ReachesNext(storing, Store(1), stored, RereadFails);
    FailedReloadFrom(stored, done, granted);
    s := AfterFailedReload(done, granted);
  }

  function AfterFailedReload(done: Caller, granted: Credential): State {
    State(0, Row(granted, Some(30)), map[1 := done][2 := Caller(InFlight(1), STALE, 0, 0, 30)], [STALE, granted], [Spend(0, "once", Succeeded), Spend(0, "once", Pending)])
  }

  lemma FailedReloadFrom(stored: State, done: Caller, granted: Credential)
    requires done.phase == Done(true) && Reaches(stored, RereadFails)
    requires stored == State(0, Row(granted, None), map[2 := Caller(Claiming(0), STALE, 0, 0, 0)][1 := done], [STALE, granted], [Spend(0, "once", Succeeded)])
    ensures Reaches(AfterFailedReload(done, granted), RereadFails)
  {
    hide Reaches;
    var finished := map[1 := done];
    var reloading := stored.(row := Row(granted, Some(30)), callers := finished[2 := Caller(Reloading, STALE, 0, 0, 30)]);
    assert reloading.callers == stored.callers[2 := reloading.callers[2]];
    ReachesNext(stored, Claim(2), reloading, RereadFails);
    var sending := reloading.(callers := finished[2 := Caller(Sending, STALE, 0, 0, 30)]);
    assert sending.callers == reloading.callers[2 := sending.callers[2]];
    ReachesNext(reloading, ReloadFails(2), sending, RereadFails);
    assert AfterFailedReload(done, granted).callers == sending.callers[2 := AfterFailedReload(done, granted).callers[2]];
    assert sending.spends + [Spend(0, "once", Pending)] == AfterFailedReload(done, granted).spends;
    ReachesNext(sending, Send(2), AfterFailedReload(done, granted), RereadFails);
  }
}
