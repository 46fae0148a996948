/** Signed requests are accepted once: the clock window and the record of used messages. */
module ReplayGuard {
  import opened Wrappers

  const MAX_SKEW_MS := 300000
  const RETENTION_MS := 600000

  // ----- The signed message -----

  const DOMAIN := "atomic-request-v2"

  predicate OneLine(s: string) {
    '\n' !in s
  }

  function Join(lines: seq<string>): string {
    if lines == [] then "" else if |lines| == 1 then lines[0] else lines[0] + "\n" + Join(lines[1..])
  }

  /** The five lines a signature covers; `hash` is the hex digest of the body. */
  function MessageText(method_: string, url: string, timestamp: string, hash: string): string {
    Join([DOMAIN, method_, url, timestamp, hash])
  }

  lemma {:induction false} SameFirstLine(a: string, b: string, x: string, y: string)
    requires OneLine(a) && OneLine(b) && a + "\n" + x == b + "\n" + y
    ensures a == b && x == y
  {
    var s := a + "\n" + x;
    assert s[|a|] == '\n' && s[|b|] == '\n';
    assert forall i :: 0 <= i < |a| ==> s[i] == a[i] != '\n';
    assert forall i :: 0 <= i < |b| ==> s[i] == b[i] != '\n';
    assert |a| == |b|;
    assert a == s[..|a|] && b == s[..|b|];
    assert x == s[|a| + 1..] && y == s[|b| + 1..];
  }

  lemma {:induction false} JoinInjective(a: seq<string>, b: seq<string>)
    requires |a| == |b| && (forall s :: s in a ==> OneLine(s)) && forall s :: s in b ==> OneLine(s)
    requires Join(a) == Join(b)
    ensures a == b
    decreases |a|
  {
    if |a| == 1 {
      assert a == [a[0]] && b == [b[0]];
    } else if |a| > 1 {
      SameFirstLine(a[0], b[0], Join(a[1..]), Join(b[1..]));
      JoinInjective(a[1..], b[1..]);
      assert a == [a[0]] + a[1..] && b == [b[0]] + b[1..];
    }
  }

  /** Two requests have one signed message exactly when method, URL, timestamp and
      body digest all agree. */
  lemma MessageCoversAll(m1: string, u1: string, t1: string, h1: string, m2: string, u2: string, t2: string, h2: string)
    requires OneLine(m1) && OneLine(u1) && OneLine(t1) && OneLine(h1) && OneLine(m2) && OneLine(u2) && OneLine(t2) && OneLine(h2)
    ensures MessageText(m1, u1, t1, h1) == MessageText(m2, u2, t2, h2) <==> m1 == m2 && u1 == u2 && t1 == t2 && h1 == h2
  {
    var a, b := [DOMAIN, m1, u1, t1, h1], [DOMAIN, m2, u2, t2, h2];
    if Join(a) == Join(b) {
      hide Join;
      JoinInjective(a, b);
      assert a[1] == b[1] && a[2] == b[2] && a[3] == b[3] && a[4] == b[4];
    }
  }

  /** The signed text, line by line. */
  lemma MessageLines(method_: string, url: string, timestamp: string, hash: string)
    ensures MessageText(method_, url, timestamp, hash) == "atomic-request-v2\n" + method_ + "\n" + url + "\n" + timestamp + "\n" + hash
  {
    assert Join([hash]) == hash;
    assert Join([timestamp, hash]) == timestamp + "\n" + hash;
    assert Join([url, timestamp, hash]) == url + "\n" + timestamp + "\n" + hash;
    assert Join([method_, url, timestamp, hash]) == method_ + "\n" + url + "\n" + timestamp + "\n" + hash;
  }

  // ----- The record of used messages -----

  /** A message is named by its replay key and keeps its signed timestamp. */
  datatype Message = Message(key: string, timestamp: nat)

  /** Used messages, each with the instant its record expires. */
  type Used = map<Message, nat>

  function Swept(used: Used, now: nat): Used {
    map m | m in used && used[m] > now :: used[m]
  }

  predicate InWindow(m: Message, now: nat) {
    m.timestamp <= now + MAX_SKEW_MS && now <= m.timestamp + MAX_SKEW_MS
  }

  class Challenges {
    var used: Used

    constructor ()
      ensures used == map[]
    {
      used := map[];
    }

    /** Deletes expired records, then records the message unless it is there already. */
    method ConsumeNonce(m: Message, sweptAt: nat, insertedAt: nat) returns (accepted: bool)
      modifies this
      ensures accepted == (m !in Swept(old(used), sweptAt))
      ensures used == if accepted then Swept(old(used), sweptAt)[m := insertedAt + RETENTION_MS] else Swept(old(used), sweptAt)
    {
      used := Swept(used, sweptAt);
      accepted := m !in used;
      if accepted {
        used := used[m := insertedAt + RETENTION_MS];
      }
    }
  }

  // ----- Runs of concurrent checks -----

  /** A check verifies its message's signature and clock window, and later inserts its
      record; sweeps come from any check. */
  datatype Event = Verify(check: nat, message: Message, at: nat) | Sweep(at: nat) | Insert(check: nat, at: nat)

  datatype Pass = Pass(message: Message, at: nat)

  datatype State = State(used: Used, passed: map<nat, Pass>)

  function Next(s: State, e: Event): State {
    match e
    case Verify(c, m, t) => if InWindow(m, t) then s.(passed := s.passed[c := Pass(m, t)]) else s
    case Sweep(t) => s.(used := Swept(s.used, t))
    case Insert(c, t) =>
      if c in s.passed && s.passed[c].message !in s.used then s.(used := s.used[s.passed[c].message := t + RETENTION_MS]) else s
  }

  function After(events: seq<Event>): State {
    if events == [] then State(map[], map[]) else Next(After(events[..|events| - 1]), events[|events| - 1])
  }

  ghost predicate Ordered(events: seq<Event>) {
    forall i, j :: 0 <= i < j < |events| ==> events[i].at <= events[j].at
  }

  /** Event `i` inserts the record of a check of `m` that passed. */
  ghost predicate Tries(events: seq<Event>, i: nat, m: Message)
    requires i < |events|
  {
    events[i].Insert? && events[i].check in After(events[..i]).passed && After(events[..i]).passed[events[i].check].message == m
  }

  ghost predicate Accepts(events: seq<Event>, i: nat, m: Message)
    requires i < |events|
  {
    Tries(events, i, m) && m !in After(events[..i]).used
  }

  /** The record written by event `i` has been swept before event `n`. */
  ghost predicate Forgotten(events: seq<Event>, i: nat, n: nat)
    requires i < n <= |events|
  {
    exists j :: i < j < n && events[j].Sweep? && events[i].at + RETENTION_MS <= events[j].at
  }

  /** The table holds exactly the accepted messages not yet forgotten. */
  ghost predicate Remembers(events: seq<Event>, n: nat, m: Message)
    requires n <= |events|
  {
    exists i :: 0 <= i < n && Accepts(events, i, m) && !Forgotten(events, i, n)
  }

  lemma ForgottenStep(events: seq<Event>, k: nat)
    requires k < |events|
    ensures forall i :: 0 <= i < k ==>
      (Forgotten(events, i, k + 1) <==> Forgotten(events, i, k) || (events[k].Sweep? && events[i].at + RETENTION_MS <= events[k].at))
  {
  }

  lemma NotYetForgotten(events: seq<Event>, k: nat)
    requires k < |events|
    ensures !Forgotten(events, k, k + 1)
  {
  }

  lemma NoTry(events: seq<Event>, k: nat, m: Message)
    requires k < |events| && !events[k].Insert?
    ensures !Accepts(events, k, m)
  {
    hide After;
  }

  lemma {:induction false} TableRemembers(events: seq<Event>, n: nat, m: Message)
    requires n <= |events|
    ensures m in After(events[..n]).used <==> Remembers(events, n, m)
    ensures forall i :: 0 <= i < n && Accepts(events, i, m) && !Forgotten(events, i, n) ==>
      m in After(events[..n]).used && After(events[..n]).used[m] == events[i].at + RETENTION_MS
    decreases n
  {
    if n > 0 {
      var k := n - 1;
      TableRemembers(events, k, m);
      StepAfter(events, k);
      hide After;
      ForgottenStep(events, k);
      if events[k].Sweep? {
        hide Accepts, Forgotten;
        assert !Accepts(events, k, m) by {
          NoTry(events, k, m);
        }
      } else {
        NotYetForgotten(events, k);
        hide Forgotten;
      }
    }
  }

  /** A message is accepted exactly when every earlier acceptance of it was swept at
      least ten minutes after it was recorded. */
  lemma AcceptedIff(events: seq<Event>, n: nat, m: Message)
    requires n < |events| && Tries(events, n, m)
    ensures Accepts(events, n, m) <==> forall i :: 0 <= i < n && Accepts(events, i, m) ==> Forgotten(events, i, n)
  {
    TableRemembers(events, n, m);
  }

  /** A pass was recorded inside the message's clock window, no later than now. */
  lemma {:induction false} PassedInWindow(events: seq<Event>, n: nat, c: nat)
    requires Ordered(events) && n < |events| && c in After(events[..n]).passed
    ensures var p := After(events[..n]).passed[c]; InWindow(p.message, p.at) && p.at <= events[n].at
    decreases n
  {
    if n > 0 {
      var k := n - 1;
      assert events[..n][..k] == events[..k];
      assert After(events[..n]) == Next(After(events[..k]), events[k]);
      if c in After(events[..k]).passed {
        PassedInWindow(events, k, c);
      }
    }
  }

  /** A message can be accepted a second time only by a check that writes its record
      five minutes or more after the signed timestamp. */
  lemma SecondAcceptanceIsLate(events: seq<Event>, i: nat, n: nat, m: Message)
    requires Ordered(events) && i < n < |events| && Accepts(events, i, m) && Accepts(events, n, m)
    ensures m.timestamp + MAX_SKEW_MS <= events[n].at
    ensures events[i].at + RETENTION_MS <= events[n].at
  {
    AcceptedIff(events, n, m);
    var j :| i < j < n && events[j].Sweep? && events[i].at + RETENTION_MS <= events[j].at;
    PassedInWindow(events, i, events[i].check);
  }

  /** Records are written strictly inside the clock window. */
  ghost predicate WrittenInTime(events: seq<Event>) {
    forall i, m :: 0 <= i < |events| && Tries(events, i, m) ==> events[i].at < m.timestamp + MAX_SKEW_MS
  }

  /** Over any interleaving of checks and sweeps, a message whose records are written
      strictly before the window closes is accepted at most once. */
  lemma AcceptedOnce(events: seq<Event>, i: nat, n: nat, m: Message)
    requires Ordered(events) && WrittenInTime(events) && i < |events| && n < |events|
    requires Accepts(events, i, m) && Accepts(events, n, m)
    ensures i == n
  {
    if i < n {
      SecondAcceptanceIsLate(events, i, n, m);
    } else if n < i {
      SecondAcceptanceIsLate(events, n, i, m);
    }
  }

  /** The bound is exact: at every instant from the closing one on, a record written
      then can be a second acceptance. */
  lemma LateWriteAcceptsTwice(m: Message, late: nat) returns (events: seq<Event>)
    requires MAX_SKEW_MS <= m.timestamp && m.timestamp + MAX_SKEW_MS <= late
    ensures Ordered(events) && |events| == 6 && events[5].at == late
    ensures Accepts(events, 2, m) && Accepts(events, 5, m)
  {
    var first, last := m.timestamp - MAX_SKEW_MS, m.timestamp + MAX_SKEW_MS;
    events := [Verify(0, m, first), Sweep(first), Insert(0, first), Verify(1, m, last), Sweep(late), Insert(1, late)];
    var s0 := State(map[], map[]);
    var s1 := Next(s0, events[0]);
    var s2 := Next(s1, events[1]);
    var s3 := Next(s2, events[2]);
    var s4 := Next(s3, events[3]);
    var s5 := Next(s4, events[4]);
    assert After(events[..0]) == s0;
    StepAfter(events, 0);
    StepAfter(events, 1);
    StepAfter(events, 2);
    StepAfter(events, 3);
    StepAfter(events, 4);
    hide After;
    assert s2.used == map[];
    assert s4.used == map[m := first + RETENTION_MS];
    assert m !in s5.used;
  }

  lemma StepAfter(events: seq<Event>, i: nat)
    requires i < |events|
    ensures After(events[..i + 1]) == Next(After(events[..i]), events[i])
  {
    assert events[..i + 1][..i] == events[..i];
  }

  /** Clock and signed timestamp are at most five minutes apart. */
  predicate Close(timestamp: int, clock: int) {
    -300000 <= clock - timestamp <= 300000
  }

  /** A check passes exactly when clock and timestamp are close. */
  lemma PassesIffClose(events: seq<Event>, k: nat)
    requires k < |events| && events[k].Verify?
    ensures var before, after := After(events[..k]), After(events[..k + 1]);
      && after.used == before.used
      && after.passed == if Close(events[k].message.timestamp, events[k].at) then before.passed[events[k].check := Pass(events[k].message, events[k].at)] else before.passed
  {
    StepAfter(events, k);
    hide After;
  }

  /** The event is the check that passed, close to its clock. */
  predicate PassedBy(e: Event, c: nat, pass: Pass) {
    e == Verify(c, pass.message, pass.at) && Close(pass.message.timestamp, pass.at)
  }

  /** A record is written only for a message that some check found close to its clock. */
  lemma {:induction false} TriedWasClose(events: seq<Event>, n: nat, c: nat)
    requires n <= |events| && c in After(events[..n]).passed
    ensures exists k :: 0 <= k < n && PassedBy(events[k], c, After(events[..n]).passed[c])
    decreases n
  {
    if n > 0 {
      var k := n - 1;
      StepAfter(events, k);
      if events[k].Verify? {
        PassesIffClose(events, k);
      }
      hide After;
      if !(events[k].Verify? && events[k].check == c && Close(events[k].message.timestamp, events[k].at)) {
        TriedWasClose(events, k, c);
      }
    }
  }
}
