/** Character classes and trimming as JavaScript has them. */
module Characters {

  predicate IsDigit(c: char) {
    '0' <= c <= '9'
  }

  /** White space and line terminators. */
  predicate IsSpace(c: char) {
    var n := c as int;
    || (9 <= n <= 13) || n == 32 || n == 0xA0 || n == 0x1680 || (0x2000 <= n <= 0x200A)
    || n == 0x2028 || n == 0x2029 || n == 0x202F || n == 0x205F || n == 0x3000 || n == 0xFEFF
  }

  /** No line terminator, so that a regular expression's dots can stand for it. */
  predicate OneLine(s: string) {
    forall i :: 0 <= i < |s| ==> s[i] as int != 10 && s[i] as int != 13 && s[i] as int != 0x2028 && s[i] as int != 0x2029
  }

  function TrimStart(s: string): string {
    if s != "" && IsSpace(s[0]) then TrimStart(s[1..]) else s
  }

  function TrimEnd(s: string): string {
    if s != "" && IsSpace(s[|s| - 1]) then TrimEnd(s[..|s| - 1]) else s
  }

  function Trim(s: string): string {
    TrimEnd(TrimStart(s))
  }

  predicate AllSpace(s: string) {
    forall i :: 0 <= i < |s| ==> IsSpace(s[i])
  }

  /** `t` is `s` without the white space around it. */
  ghost predicate IsTrimmed(t: string, s: string) {
    && (t != "" ==> !IsSpace(t[0]) && !IsSpace(t[|t| - 1]))
    && exists lead, trail :: AllSpace(lead) && AllSpace(trail) && s == lead + t + trail
  }

  lemma {:induction false} StartTrims(s: string) returns (lead: string)
    ensures AllSpace(lead) && s == lead + TrimStart(s) && (TrimStart(s) != "" ==> !IsSpace(TrimStart(s)[0]))
    decreases |s|
  {
    if s != "" && IsSpace(s[0]) {
      var rest := StartTrims(s[1..]);
      lead := [s[0]] + rest;
      hide IsSpace;
      assert s == [s[0]] + (rest + TrimStart(s[1..])) == lead + TrimStart(s);
    } else {
      lead := "";
    }
  }

  lemma {:induction false} EndTrims(s: string) returns (trail: string)
    ensures AllSpace(trail) && s == TrimEnd(s) + trail && (TrimEnd(s) != "" ==> !IsSpace(TrimEnd(s)[|TrimEnd(s)| - 1]) && TrimEnd(s)[0] == s[0])
    decreases |s|
  {
    if s != "" && IsSpace(s[|s| - 1]) {
      trail := EndTrims(s[..|s| - 1]);
      trail := trail + [s[|s| - 1]];
      assert s == s[..|s| - 1] + [s[|s| - 1]];
    } else {
      trail := "";
      assert s + "" == s;
    }
  }

  lemma TrimIsTrimmed(s: string)
    ensures IsTrimmed(Trim(s), s)
  {
    hide TrimStart, TrimEnd, IsSpace;
    var lead := StartTrims(s);
    var trail := EndTrims(TrimStart(s));
    assert s == lead + Trim(s) + trail;
  }

  lemma {:induction false} StartDrops(lead: string, rest: string)
    requires AllSpace(lead)
    ensures TrimStart(lead + rest) == TrimStart(rest)
    decreases |lead|
  {
    if lead == "" {
      assert lead + rest == rest;
    } else {
      assert (lead + rest)[1..] == lead[1..] + rest;
      StartDrops(lead[1..], rest);
    }
  }

  lemma {:induction false} EndDrops(front: string, trail: string)
    requires AllSpace(trail)
    ensures TrimEnd(front + trail) == TrimEnd(front)
    decreases |trail|
  {
    if trail == "" {
      assert front + trail == front;
    } else {
      assert (front + trail)[..|front + trail| - 1] == front + trail[..|trail| - 1];
      EndDrops(front, trail[..|trail| - 1]);
    }
  }

  /** Trimming is the only way to take exactly the white space around a text off. */
  lemma TrimmedIsTrim(t: string, s: string)
    ensures IsTrimmed(t, s) <==> t == Trim(s)
  {
    TrimIsTrimmed(s);
    if IsTrimmed(t, s) {
      var lead, trail :| AllSpace(lead) && AllSpace(trail) && s == lead + t + trail;
      assert s == lead + (t + trail);
      StartDrops(lead, t + trail);
      if t == "" {
        assert t + trail == trail + "";
        StartDrops(trail, "");
      } else {
        assert (t + trail)[0] == t[0];
        EndDrops(t, trail);
      }
    }
  }
}
