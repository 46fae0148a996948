/** What a refresh leaves in the row, and what a caller that returns Ok may rely on. */
module RefreshTokens {
  import opened Wrappers
  import opened RefreshLease

  // ----- What is promised -----

  /** The provider granted `c` this credential: the new access token, the new refresh
      token or else the one that was sent, and the lifetime counted from the answer. */
  ghost predicate GrantsAt(s: State, e: Event, c: nat, credential: Credential) {
    && e.Answered? && e.caller == c && e.answer.Granted?
    && c in s.callers && s.callers[c].phase.InFlight? && s.callers[c].phase.entry < |s.spends|
    && credential.OAuth?
    && credential.access == e.answer.access
    && credential.refresh == (if e.answer.refresh.Some? then e.answer.refresh else Some(s.spends[s.callers[c].phase.entry].token))
    && credential.expiresAt == (if e.answer.expiresIn.Some? then Some(s.now + e.answer.expiresIn.value) else None)
  }

  ghost predicate GrantedTo(states: seq<State>, events: seq<Event>, i: nat, c: nat, credential: Credential)
    requires i <= |events| && |states| == |events| + 1
  {
    exists j :: 0 <= j < i && GrantsAt(states[j], events[j], c, credential)
  }

  ghost predicate Granted(states: seq<State>, events: seq<Event>, i: nat, credential: Credential)
    requires i <= |events| && |states| == |events| + 1
  {
    exists c :: GrantedTo(states, events, i, c, credential)
  }

  /** Usable for more than 30 seconds from `now`. */
  predicate Fresh(credential: Credential, now: nat) {
    match credential
    case ApiKey(_) => true
    case OAuth(_, _, expiresAt) => expiresAt.Some? ==> now + 30 < expiresAt.value
  }

  /** During its call `c` saw the credential fresh, or stored it right after it was granted. */
  ghost predicate Earned(states: seq<State>, events: seq<Event>, i: nat, c: nat, credential: Credential)
    requires i <= |events| && |states| == |events| + 1
  {
    exists j :: 0 <= j < i && EarnedAt(states, events, j, c, credential)
  }

  ghost predicate EarnedAt(states: seq<State>, events: seq<Event>, j: nat, c: nat, credential: Credential)
    requires j < |events| && |states| == |events| + 1
  {
    && c in states[j].callers
    && match events[j]
       case Look(d) => d == c && Fresh(credential, states[j].now)
       case Reload(d) => d == c && Fresh(credential, states[j].now)
       case ReloadFails(d) => d == c && Fresh(credential, states[j].now)
       case Store(d) => d == c && GrantedTo(states, events, j, c, credential)
       case _ => false
  }

  // ----- One step -----

  /** What a step may do to a caller, to the versions and to the spends. */
  lemma GrantMakes(s: State, e: Event, c: nat)
    requires Next(s, e).Some? && c in Next(s, e).value.callers && Next(s, e).value.callers[c].phase.Storing?
    requires c in s.callers && s.callers[c].phase.InFlight? ==> HoldsSent(s, s.callers[c])
    ensures (c in s.callers && s.callers[c] == Next(s, e).value.callers[c]) || GrantsAt(s, e, c, Next(s, e).value.callers[c].credential)
  {
    hide LeaseFree, NeedsRefresh;
  }

  /** A caller waiting for an answer still holds the token it sent. */
  ghost predicate HoldsSent(s: State, caller: Caller) {
    caller.phase.InFlight? ==>
      caller.phase.entry < |s.spends| && caller.credential.OAuth? && caller.credential.refresh == Some(s.spends[caller.phase.entry].token)
  }

  lemma StepHoldsSent(s: State, e: Event, c: nat)
    requires Next(s, e).Some? && c in Next(s, e).value.callers
    requires c in s.callers ==> HoldsSent(s, s.callers[c])
    ensures HoldsSent(Next(s, e).value, Next(s, e).value.callers[c])
  {
    hide LeaseFree, NeedsRefresh;
  }

  /** New versions come only from storing. */
  lemma StepVersions(s: State, e: Event)
    requires Next(s, e).Some?
    ensures var t := Next(s, e).value;
      t.versions == s.versions
      || (e.Store? && e.caller in s.callers && s.callers[e.caller].phase.Storing? && t.versions == s.versions + [s.callers[e.caller].credential])
  {
    hide LeaseFree, NeedsRefresh;
  }

  predicate Succeeding(caller: Caller) {
    caller.phase == Done(true) || caller.phase == Releasing(true)
  }

  /** How a caller comes to succeed. */
  lemma StepSucceeds(s: State, e: Event, c: nat)
    requires Next(s, e).Some? && c in Next(s, e).value.callers && Succeeding(Next(s, e).value.callers[c])
    ensures c in s.callers
    ensures var credential := Next(s, e).value.callers[c].credential;
      || (Succeeding(s.callers[c]) && s.callers[c].credential == credential)
      || ((e == Look(c) || e == Reload(c) || e == ReloadFails(c)) && Fresh(credential, s.now))
      || (e == Store(c) && s.callers[c].phase.Storing? && s.callers[c].credential == credential)
  {
    hide LeaseFree;
  }

  // ----- Whole runs -----

  ghost predicate Accounted(states: seq<State>, events: seq<Event>, i: nat)
    requires i <= |events| && |states| == |events| + 1
  {
    && |states[i].versions| > 0
    && (forall k :: 1 <= k < |states[i].versions| ==> Granted(states, events, i, states[i].versions[k]))
    && (forall c :: c in states[i].callers ==> HoldsSent(states[i], states[i].callers[c]))
    && (forall c :: c in states[i].callers && states[i].callers[c].phase.Storing? ==> GrantedTo(states, events, i, c, states[i].callers[c].credential))
    && (forall c :: c in states[i].callers && Succeeding(states[i].callers[c]) ==> Earned(states, events, i, c, states[i].callers[c].credential))
  }

  lemma Later(states: seq<State>, events: seq<Event>, i: nat, c: nat, credential: Credential)
    requires i < |events| && |states| == |events| + 1
    ensures GrantedTo(states, events, i, c, credential) ==> GrantedTo(states, events, i + 1, c, credential)
    ensures Granted(states, events, i, credential) ==> Granted(states, events, i + 1, credential)
    ensures Earned(states, events, i, c, credential) ==> Earned(states, events, i + 1, c, credential)
  {
    hide GrantsAt, EarnedAt;
    if Granted(states, events, i, credential) {
      var d :| GrantedTo(states, events, i, d, credential);
      var j :| 0 <= j < i && GrantsAt(states[j], events[j], d, credential);
      assert GrantedTo(states, events, i + 1, d, credential);
    }
  }

  lemma StepAccounts(states: seq<State>, events: seq<Event>, i: nat)
    requires i < |events| && |states| == |events| + 1 && Next(states[i], events[i]) == Some(states[i + 1])
    requires Accounted(states, events, i)
    ensures Accounted(states, events, i + 1)
  {
    var s, e, t := states[i], events[i], states[i + 1];
    hide Next, NextOf, HoldsSent, GrantedTo, Granted, Earned, EarnedAt, GrantsAt;
    StepVersions(s, e);
    forall k | 1 <= k < |t.versions| ensures Granted(states, events, i + 1, t.versions[k]) {
      if k < |s.versions| {
        Later(states, events, i, 0, s.versions[k]);
      } else {
        Later(states, events, i, e.caller, t.versions[k]);
        SomeGrant(states, events, i + 1, e.caller, t.versions[k]);
      }
    }
    forall c | c in t.callers ensures HoldsSent(t, t.callers[c]) {
      StepHoldsSent(s, e, c);
    }
    forall c | c in t.callers && t.callers[c].phase.Storing? ensures GrantedTo(states, events, i + 1, c, t.callers[c].credential) {
      GrantMakes(s, e, c);
      Later(states, events, i, c, t.callers[c].credential);
      GrantNow(states, events, i, c, t.callers[c].credential);
    }
    forall c | c in t.callers && Succeeding(t.callers[c]) ensures Earned(states, events, i + 1, c, t.callers[c].credential) {
      StepSucceeds(s, e, c);
      Later(states, events, i, c, t.callers[c].credential);
      EarnNow(states, events, i, c, t.callers[c].credential);
    }
  }

  lemma SomeGrant(states: seq<State>, events: seq<Event>, i: nat, c: nat, credential: Credential)
    requires i <= |events| && |states| == |events| + 1
    ensures GrantedTo(states, events, i, c, credential) ==> Granted(states, events, i, credential)
  {
  }

  lemma GrantNow(states: seq<State>, events: seq<Event>, i: nat, c: nat, credential: Credential)
    requires i < |events| && |states| == |events| + 1
    ensures GrantsAt(states[i], events[i], c, credential) ==> GrantedTo(states, events, i + 1, c, credential)
  {
  }

  lemma EarnNow(states: seq<State>, events: seq<Event>, i: nat, c: nat, credential: Credential)
    requires i < |events| && |states| == |events| + 1 && c in states[i].callers
    ensures (events[i] == Look(c) || events[i] == Reload(c) || events[i] == ReloadFails(c)) && Fresh(credential, states[i].now) ==>
      Earned(states, events, i + 1, c, credential)
    ensures events[i] == Store(c) && GrantedTo(states, events, i, c, credential) ==> Earned(states, events, i + 1, c, credential)
  {
    hide GrantedTo;
    assert EarnedAt(states, events, i, c, credential) ==> Earned(states, events, i + 1, c, credential);
  }

  lemma {:induction false} RunAccounts(states: seq<State>, events: seq<Event>, i: nat)
    requires Run(states, events) && i <= |events|
    ensures Accounted(states, events, i)
    decreases i
  {
    hide Accounted, Next;
    if i > 0 {
      RunAccounts(states, events, i - 1);
      assert Next(states[i - 1], events[i - 1]) == Some(states[i - 1 + 1]);
      StepAccounts(states, events, i - 1);
    } else {
      var credential :| states[0] == Start(credential);
      StartAccounts(states, events, credential);
    }
  }

  lemma StartAccounts(states: seq<State>, events: seq<Event>, credential: Credential)
    requires |states| == |events| + 1 && states[0] == Start(credential)
    ensures Accounted(states, events, 0)
  {
  }

  /** Whatever fails and however callers interleave, every credential stored after the
      first is one the provider granted: with its access token, its refresh token or
      else the one that was sent, and its lifetime counted from the answer. */
  lemma StoredWasGranted(states: seq<State>, events: seq<Event>, i: nat, k: nat)
    requires Run(states, events) && i < |states| && 1 <= k < |states[i].versions|
    ensures Granted(states, events, i, states[i].versions[k])
  {
    hide Next, Granted;
    RunAccounts(states, events, i);
  }

  /** So a connection that can be refreshed stays one: while the first credential has
      a refresh token, every later one has. */
  lemma StaysRefreshable(states: seq<State>, events: seq<Event>, i: nat, k: nat)
    requires Run(states, events) && i < |states| && k < |states[i].versions|
    requires states[0].row.envelope.OAuth? && states[0].row.envelope.refresh.Some?
    ensures states[i].versions[k].OAuth? && states[i].versions[k].refresh.Some?
  {
    hide Next;
    if k > 0 {
      StoredWasGranted(states, events, i, k);
    } else {
      FirstStays(states, events, i);
    }
  }

  lemma {:induction false} FirstStays(states: seq<State>, events: seq<Event>, i: nat)
    requires Run(states, events) && i < |states|
    ensures |states[i].versions| > 0 && states[i].versions[0] == states[0].row.envelope
    decreases i
  {
    hide Next;
    if i > 0 {
      FirstStays(states, events, i - 1);
      assert Next(states[i - 1], events[i - 1]) == Some(states[i - 1 + 1]);
      StepVersions(states[i - 1], events[i - 1]);
    }
  }

  /** A caller that returns Ok holds a credential that does not expire, one that it saw
      more than 30 seconds from expiring, or the one it was just granted and stored. */
  lemma OkIsFresh(states: seq<State>, events: seq<Event>, i: nat, c: nat)
    requires Run(states, events) && i < |states| && c in states[i].callers && states[i].callers[c].phase == Done(true)
    ensures Earned(states, events, i, c, states[i].callers[c].credential)
  {
    hide Next, Earned;
    RunAccounts(states, events, i);
  }

  /** A caller that is still waiting for its turn, and how often it has waited. */
  predicate WaitsLess(caller: Caller) {
    match caller.phase
    case Looping(n) => n <= 50
    case Claiming(n) => n < 50
    case Waiting(n) => n < 50
    case _ => true
  }

  lemma StepWaits(s: State, e: Event, c: nat)
    requires Next(s, e).Some? && c in Next(s, e).value.callers && (c in s.callers ==> WaitsLess(s.callers[c]))
    ensures WaitsLess(Next(s, e).value.callers[c])
  {
    hide LeaseFree, NeedsRefresh;
  }

  /** A caller looks until its credential is fresh, tries to claim the lease whenever it
      is not, and gives up with an error after waiting fifty times. */
  lemma {:induction false} WaitsFiftyTimes(states: seq<State>, events: seq<Event>, i: nat, c: nat)
    requires Run(states, events) && i < |states| && c in states[i].callers
    ensures WaitsLess(states[i].callers[c])
    ensures i < |events| && events[i] == Look(c) && states[i].callers[c].phase.Looping? ==>
      && c in states[i + 1].callers
      && var n := states[i].callers[c].phase.attempt;
         states[i + 1].callers[c].phase
           == if n == 50 then Done(false) else if Fresh(states[i].callers[c].credential, states[i].now) then Done(true) else Claiming(n)
    decreases i
  {
    if i > 0 {
      assert Next(states[i - 1], events[i - 1]) == Some(states[i - 1 + 1]);
      if c in states[i - 1].callers {
        WaitsFiftyTimes(states, events, i - 1, c);
      }
      StepWaits(states[i - 1], events[i - 1], c);
    }
    if i < |events| && states[i].callers[c].phase.Looping? && events[i] == Look(c) {
      assert Next(states[i], events[i]) == Some(states[i + 1]);
    }
    hide LeaseFree;
  }

  /** A caller that lost the race gets the winner's result: waking, it takes what the
      row then holds, and if that is fresh its next look returns it. */
  lemma LoserGetsResult(s: State, c: nat)
    requires s.versions != [] && c in s.callers && s.callers[c].phase.Waiting? && s.callers[c].phase.attempt + 1 < 50
    requires Fresh(s.row.envelope, s.now)
    ensures Next(s, Wake(c)).Some? && Next(Next(s, Wake(c)).value, Look(c)).Some?
    ensures var t := Next(Next(s, Wake(c)).value, Look(c)).value;
      t.callers[c].phase == Done(true) && t.callers[c].credential == s.row.envelope && t.row == s.row && t.spends == s.spends
  {
  }

  /** A holder rereads before it spends: what it sends is the row's own token. */
  lemma HolderRereads(s: State, c: nat)
    requires s.versions != [] && c in s.callers && s.callers[c].phase.Reloading?
    ensures Next(s, Reload(c)).Some?
    ensures var t := Next(s, Reload(c)).value.callers[c];
      && t.credential == s.row.envelope
      && t.phase == if Fresh(s.row.envelope, s.now) then Releasing(true) else Sending
  {
  }
}
