/** The key-sorted JSON text that reconciliation compares values by. */
module StableJson {
  import opened Ordering

  /** A JSON tree as JavaScript holds it: numbers by their shortest numeral, object
      members in insertion order. */
  datatype Json =
    | Null
    | Bool(on: bool)
    | Number(numeral: string)
    | Text(text: string)
    | List(items: seq<Json>)
    | Object(members: seq<(string, Json)>)

  // ----- Strings -----

  function HexDigit(n: nat): char
    requires n < 16
  {
    "0123456789abcdef"[n]
  }

  /** One character inside a JSON string. */
  function Escape(c: char): (r: string)
    ensures |r| > 0 && r[0] != '"'
  {
    if c == '"' then "\\\""
    else if c == '\\' then "\\\\"
    else if c == 8 as char then "\\b"
    else if c == 12 as char then "\\f"
    else if c == '\n' then "\\n"
    else if c == '\r' then "\\r"
    else if c == '\t' then "\\t"
    else if c as int < 32 then "\\u00" + [HexDigit(c as int / 16), HexDigit(c as int % 16)]
    else [c]
  }

  function Escaped(s: string): string {
    if s == "" then "" else Escape(s[0]) + Escaped(s[1..])
  }

  function Quote(s: string): string {
    "\"" + Escaped(s) + "\""
  }

  // ----- Printing -----

  function Keys(members: seq<(string, Json)>): (r: seq<string>)
    ensures |r| == |members| && forall i :: 0 <= i < |r| ==> r[i] == members[i].0
  {
    seq(|members|, i requires 0 <= i < |members| => members[i].0)
  }

  function Find(members: seq<(string, Json)>, key: string): (i: nat)
    requires key in Keys(members)
    ensures i < |members| && members[i].0 == key
  {
    if members[0].0 == key then 0
    else
      assert Keys(members) == [members[0].0] + Keys(members[1..]);
      1 + Find(members[1..], key)
  }

  function Stringify(v: Json): string
    decreases v, 1, 0
  {
    match v
    case Null => "null"
    case Bool(on) => if on then "true" else "false"
    case Number(numeral) => numeral
    case Text(text) => Quote(text)
    case List(items) => "[" + PrintItems(v, 0) + "]"
    case Object(members) =>
      SortKeeps(Keys(members));
      "{" + PrintMembers(v, Sort(Keys(members))) + "}"
  }

  function PrintItems(v: Json, i: nat): string
    requires v.List? && i <= |v.items|
    decreases v, 0, |v.items| - i
  {
    if i == |v.items| then ""
    else if i + 1 == |v.items| then Stringify(v.items[i])
    else Stringify(v.items[i]) + "," + PrintItems(v, i + 1)
  }

  predicate HasKeys(v: Json, keys: seq<string>) {
    v.Object? && forall k :: k in keys ==> k in Keys(v.members)
  }

  function Member(v: Json, key: string): (m: Json)
    requires v.Object? && key in Keys(v.members)
    ensures m < v
  {
    v.members[Find(v.members, key)].1
  }

  function PrintMembers(v: Json, keys: seq<string>): string
    requires HasKeys(v, keys)
    decreases v, 0, |keys|
  {
    if keys == [] then ""
    else
      var one := Quote(keys[0]) + ":" + Stringify(Member(v, keys[0]));
      if |keys| == 1 then one else one + "," + PrintMembers(v, keys[1..])
  }

  lemma SortKeeps(keys: seq<string>)
    ensures forall k :: k in Sort(keys) <==> k in keys
  {
    assert forall k :: k in keys <==> k in multiset(keys);
    assert forall k :: k in Sort(keys) <==> k in multiset(Sort(keys));
  }

  // ----- Well-formed trees and structural equality -----

  predicate IsNumeralChar(c: char) {
    '0' <= c <= '9' || c == '-' || c == '+' || c == '.' || c == 'e'
  }

  predicate IsNumeral(s: string) {
    |s| > 0 && ('0' <= s[0] <= '9' || s[0] == '-') && forall i :: 0 <= i < |s| ==> IsNumeralChar(s[i])
  }

  predicate Distinct(keys: seq<string>) {
    forall i, j :: 0 <= i < j < |keys| ==> keys[i] != keys[j]
  }

  /** What every JavaScript value is: keys distinct, numbers printed as numerals. */
  predicate WellFormed(v: Json) {
    match v
    case Number(numeral) => IsNumeral(numeral)
    case List(items) => forall i :: 0 <= i < |items| ==> WellFormed(items[i])
    case Object(members) => Distinct(Keys(members)) && forall i :: 0 <= i < |members| ==> WellFormed(members[i].1)
    case _ => true
  }

  /** Structural equality: arrays item by item, objects key by key in any order. */
  predicate Equal(a: Json, b: Json)
    decreases a
  {
    match (a, b)
    case (List(x), List(y)) => |x| == |y| && forall i :: 0 <= i < |x| ==> Equal(x[i], y[i])
    case (Object(x), Object(y)) =>
      |x| == |y| && forall i :: 0 <= i < |x| ==> x[i].0 in Keys(y) && Equal(x[i].1, Member(b, x[i].0))
    case _ => a == b
  }

  // ----- Strings print injectively -----

  lemma HexInjective(a: nat, b: nat)
    requires a < 16 && b < 16 && HexDigit(a) == HexDigit(b)
    ensures a == b
  {
  }

  lemma EscapeCancels(c: char, d: char, x: string, y: string)
    requires Escape(c) + x == Escape(d) + y
    ensures c == d && x == y
  {
    var left, right := Escape(c) + x, Escape(d) + y;
    assert left[0] == Escape(c)[0] && right[0] == Escape(d)[0];
    if Escape(c)[0] == '\\' {
      assert left[1] == Escape(c)[1] && right[1] == Escape(d)[1];
      if Escape(c)[1] == 'u' {
        assert left[4] == Escape(c)[4] && right[4] == Escape(d)[4];
        assert left[5] == Escape(c)[5] && right[5] == Escape(d)[5];
        HexInjective(c as int / 16, d as int / 16);
        HexInjective(c as int % 16, d as int % 16);
      }
    }
    assert c == d;
    assert x == left[|Escape(c)|..] && y == right[|Escape(c)|..];
  }

  lemma {:induction false} EscapedCancels(s: string, t: string, x: string, y: string)
    requires Escaped(s) + "\"" + x == Escaped(t) + "\"" + y
    ensures s == t && x == y
    decreases |s|
  {
    hide Escape;
    var left, right := Escaped(s) + "\"" + x, Escaped(t) + "\"" + y;
    assert left[0] == (if s == "" then '"' else Escape(s[0])[0]);
    assert right[0] == (if t == "" then '"' else Escape(t[0])[0]);
    if s == "" {
      assert x == left[1..] && y == right[1..];
    } else {
      assert left == Escape(s[0]) + (Escaped(s[1..]) + "\"" + x);
      assert right == Escape(t[0]) + (Escaped(t[1..]) + "\"" + y);
      EscapeCancels(s[0], t[0], Escaped(s[1..]) + "\"" + x, Escaped(t[1..]) + "\"" + y);
      EscapedCancels(s[1..], t[1..], x, y);
      assert s == [s[0]] + s[1..] && t == [t[0]] + t[1..];
    }
  }

  lemma QuoteCancels(s: string, t: string, x: string, y: string)
    requires Quote(s) + x == Quote(t) + y
    ensures s == t && x == y
  {
    assert (Quote(s) + x)[1..] == Escaped(s) + "\"" + x;
    assert (Quote(t) + y)[1..] == Escaped(t) + "\"" + y;
    EscapedCancels(s, t, x, y);
  }

  // ----- Whole trees print injectively -----

  /** Nothing after a printed value can extend a numeral. */
  predicate Stops(rest: string) {
    rest == "" || !IsNumeralChar(rest[0])
  }

  lemma NumeralCancels(a: string, b: string, x: string, y: string)
    requires IsNumeral(a) && IsNumeral(b) && Stops(x) && Stops(y) && a + x == b + y
    ensures a == b && x == y
  {
    var s := a + x;
    assert forall i :: 0 <= i < |a| ==> s[i] == a[i] && IsNumeralChar(s[i]);
    assert forall i :: 0 <= i < |b| ==> s[i] == b[i] && IsNumeralChar(s[i]);
    assert |a| < |s| ==> s[|a|] == x[0];
    assert |b| < |s| ==> s[|b|] == y[0];
    assert |a| == |b|;
    assert a == s[..|a|] && b == s[..|b|] && x == s[|a|..] && y == s[|b|..];
  }

  /** The first character of a printed value tells its kind. */
  predicate Opens(v: Json, c: char) {
    match v
    case Null => c == 'n'
    case Bool(on) => c == if on then 't' else 'f'
    case Number(_) => '0' <= c <= '9' || c == '-'
    case Text(_) => c == '"'
    case List(_) => c == '['
    case Object(_) => c == '{'
  }

  lemma PrintsKind(v: Json)
    requires WellFormed(v)
    ensures Stringify(v) != "" && Opens(v, Stringify(v)[0])
  {
    hide PrintItems, PrintMembers;
  }

  function AfterItem(v: Json, i: nat, x: string): string
    requires v.List? && i < |v.items|
  {
    if i + 1 == |v.items| then "]" + x else "," + PrintItems(v, i + 1) + "]" + x
  }

  lemma ItemThenRest(v: Json, i: nat, x: string)
    requires v.List? && i < |v.items|
    ensures PrintItems(v, i) + "]" + x == Stringify(v.items[i]) + AfterItem(v, i, x)
  {
    hide Stringify;
  }

  function AfterMember(v: Json, keys: seq<string>, x: string): string
    requires HasKeys(v, keys) && keys != []
  {
    if |keys| == 1 then "}" + x else "," + PrintMembers(v, keys[1..]) + "}" + x
  }

  lemma MemberThenRest(v: Json, keys: seq<string>, x: string)
    requires HasKeys(v, keys) && keys != []
    ensures PrintMembers(v, keys) + "}" + x == Quote(keys[0]) + (":" + Stringify(Member(v, keys[0])) + AfterMember(v, keys, x))
  {
    hide Stringify, Quote, Member;
    var key, value := Quote(keys[0]), Stringify(Member(v, keys[0]));
    if |keys| == 1 {
      assert key + ":" + value + "}" + x == key + (":" + value + ("}" + x));
    } else {
      var rest := PrintMembers(v, keys[1..]);
      assert key + ":" + value + "," + rest + "}" + x == key + (":" + value + ("," + rest + "}" + x));
    }
  }

  lemma SameKind(a: Json, b: Json, x: string, y: string)
    requires WellFormed(a) && WellFormed(b) && Stringify(a) + x == Stringify(b) + y
    ensures a.Null? == b.Null? && a.Bool? == b.Bool? && a.Number? == b.Number? && a.Text? == b.Text? && a.List? == b.List? && a.Object? == b.Object?
    ensures a.Bool? ==> a == b
  {
    hide Stringify, WellFormed;
    PrintsKind(a);
    PrintsKind(b);
    assert (Stringify(a) + x)[0] == Stringify(a)[0] && (Stringify(b) + y)[0] == Stringify(b)[0];
  }

  lemma ScalarCancels(a: Json, b: Json, x: string, y: string)
    requires WellFormed(a) && WellFormed(b) && Stops(x) && Stops(y) && !a.List? && !a.Object?
    requires Stringify(a) + x == Stringify(b) + y
    ensures a == b && x == y
  {
    SameKind(a, b, x, y);
    match a
    case Null => RestOf("null", x, y);
    case Bool(on) => RestOf(if on then "true" else "false", x, y);
    case Number(n) => NumeralCancels(n, b.numeral, x, y);
    case Text(s) => QuoteCancels(s, b.text, x, y);
  }

  lemma EqualScalars(a: Json)
    requires !a.List? && !a.Object?
    ensures Equal(a, a)
  {
  }

  lemma ListText(v: Json, x: string)
    requires v.List?
    ensures (Stringify(v) + x)[1..] == PrintItems(v, 0) + "]" + x
  {
    hide PrintItems;
  }

  lemma ListCancels(a: Json, b: Json, x: string, y: string)
    requires WellFormed(a) && WellFormed(b) && a.List? && b.List?
    requires Stringify(a) + x == Stringify(b) + y
    ensures Equal(a, b) && x == y
    decreases a, 0, |a.items| + 1
  {
    hide Stringify, WellFormed, PrintItems;
    ListText(a, x);
    ListText(b, y);
    ItemsCancel(a, b, 0, x, y);
  }

  lemma {:induction false} TextCancels(a: Json, b: Json, x: string, y: string)
    requires WellFormed(a) && WellFormed(b) && Stops(x) && Stops(y)
    requires Stringify(a) + x == Stringify(b) + y
    ensures Equal(a, b) && x == y
    decreases a, 1, 0
  {
    hide Stringify, WellFormed, Stops, Equal;
    SameKind(a, b, x, y);
    if a.List? {
      ListCancels(a, b, x, y);
    } else if a.Object? {
      ObjectCancels(a, b, x, y);
    } else {
      ScalarCancels(a, b, x, y);
      EqualScalars(a);
    }
  }

  lemma RestOf(s: string, x: string, y: string)
    requires s + x == s + y
    ensures x == y
  {
    assert x == (s + x)[|s|..] && y == (s + y)[|s|..];
  }

  lemma {:induction false} ItemsCancel(a: Json, b: Json, i: nat, x: string, y: string)
    requires WellFormed(a) && WellFormed(b) && a.List? && b.List? && i <= |a.items| && i <= |b.items|
    requires PrintItems(a, i) + "]" + x == PrintItems(b, i) + "]" + y
    ensures |a.items| == |b.items| && x == y && forall j :: i <= j < |a.items| ==> Equal(a.items[j], b.items[j])
    decreases a, 0, |a.items| - i
  {
    hide Stringify, Equal;
    ItemsStart(a, i, x);
    ItemsStart(b, i, y);
    if i == |a.items| {
      assert x == (PrintItems(a, i) + "]" + x)[1..] && y == (PrintItems(b, i) + "]" + y)[1..];
    } else {
      ItemThenRest(a, i, x);
      ItemThenRest(b, i, y);
      TextCancels(a.items[i], b.items[i], AfterItem(a, i, x), AfterItem(b, i, y));
      assert AfterItem(a, i, x)[0] == (if i + 1 == |a.items| then ']' else ',');
      assert AfterItem(b, i, y)[0] == (if i + 1 == |b.items| then ']' else ',');
      if i + 1 == |a.items| {
        assert x == AfterItem(a, i, x)[1..] && y == AfterItem(b, i, y)[1..];
      } else {
        assert PrintItems(a, i + 1) + "]" + x == AfterItem(a, i, x)[1..];
        assert PrintItems(b, i + 1) + "]" + y == AfterItem(b, i, y)[1..];
        ItemsCancel(a, b, i + 1, x, y);
      }
    }
  }

  /** A list's text starts with its closing bracket exactly when no item is left. */
  lemma ItemsStart(v: Json, i: nat, x: string)
    requires WellFormed(v) && v.List? && i <= |v.items|
    ensures (PrintItems(v, i) + "]" + x)[0] == ']' <==> i == |v.items|
  {
    if i < |v.items| {
      ItemThenRest(v, i, x);
      PrintsKind(v.items[i]);
    }
  }

  lemma ObjectText(v: Json, x: string)
    requires v.Object? && HasKeys(v, Sort(Keys(v.members)))
    ensures (Stringify(v) + x)[1..] == PrintMembers(v, Sort(Keys(v.members))) + "}" + x
  {
    hide PrintMembers, Sort, Keys;
  }

  lemma SortedKeysAreKeys(v: Json)
    requires v.Object?
    ensures HasKeys(v, Sort(Keys(v.members)))
  {
    SortKeeps(Keys(v.members));
  }

  lemma ObjectCancels(a: Json, b: Json, x: string, y: string)
    requires WellFormed(a) && WellFormed(b) && a.Object? && b.Object?
    requires Stringify(a) + x == Stringify(b) + y
    ensures Equal(a, b) && x == y
    decreases a, 0, |a.members| + 1
  {
    var ka, kb := Sort(Keys(a.members)), Sort(Keys(b.members));
    SortedKeysAreKeys(a);
    SortedKeysAreKeys(b);
    ObjectText(a, x);
    ObjectText(b, y);
    hide Stringify, PrintMembers, HasKeys, Find;
    MembersCancel(a, b, ka, kb, x, y);
    SameMembers(a, b);
  }

  lemma SameMembers(a: Json, b: Json)
    requires a.Object? && b.Object? && WellFormed(a) && HasKeys(a, Sort(Keys(a.members))) && Sort(Keys(a.members)) == Sort(Keys(b.members))
    requires HasKeys(b, Sort(Keys(b.members)))
    requires forall k :: k in Sort(Keys(a.members)) ==> Equal(Member(a, k), Member(b, k))
    ensures Equal(a, b)
  {
    hide Stringify, PrintMembers, Member, Find;
    forall i | 0 <= i < |a.members|
      ensures a.members[i].0 in Keys(b.members) && Equal(a.members[i].1, Member(b, a.members[i].0))
    {
      var k := a.members[i].0;
      assert k == Keys(a.members)[i];
      SortKeeps(Keys(a.members));
      assert k in Sort(Keys(a.members));
      OnlyMember(a, i);
      assert k in Keys(b.members);
    }
  }

  lemma OnlyMember(v: Json, i: nat)
    requires v.Object? && i < |v.members| && Distinct(Keys(v.members))
    ensures v.members[i].0 in Keys(v.members) && Member(v, v.members[i].0) == v.members[i].1
  {
    assert Keys(v.members)[i] == v.members[i].0;
    var j := Find(v.members, v.members[i].0);
    assert Keys(v.members)[j] == Keys(v.members)[i];
  }

  lemma {:induction false} MembersCancel(a: Json, b: Json, ka: seq<string>, kb: seq<string>, x: string, y: string)
    requires WellFormed(a) && WellFormed(b) && HasKeys(a, ka) && HasKeys(b, kb)
    requires PrintMembers(a, ka) + "}" + x == PrintMembers(b, kb) + "}" + y
    ensures ka == kb && x == y && forall k :: k in ka ==> Equal(Member(a, k), Member(b, k))
    decreases a, 0, |ka|
  {
    hide Stringify, Equal, Quote, Member;
    MembersStart(a, ka, x);
    MembersStart(b, kb, y);
    if ka == [] {
      assert x == (PrintMembers(a, ka) + "}" + x)[1..] && y == (PrintMembers(b, kb) + "}" + y)[1..];
    } else {
      MemberThenRest(a, ka, x);
      MemberThenRest(b, kb, y);
      var ra, rb := AfterMember(a, ka, x), AfterMember(b, kb, y);
      var va, vb := Member(a, ka[0]), Member(b, kb[0]);
      QuoteCancels(ka[0], kb[0], ":" + Stringify(va) + ra, ":" + Stringify(vb) + rb);
      assert Stringify(va) + ra == (":" + Stringify(va) + ra)[1..];
      assert Stringify(vb) + rb == (":" + Stringify(vb) + rb)[1..];
      MemberIsWellFormed(a, ka[0]);
      MemberIsWellFormed(b, kb[0]);
      TextCancels(va, vb, ra, rb);
      assert ra[0] == (if |ka| == 1 then '}' else ',') && rb[0] == (if |kb| == 1 then '}' else ',');
      if |ka| == 1 {
        assert x == ra[1..] && y == rb[1..];
        assert ka == [ka[0]] && kb == [kb[0]];
      } else {
        assert PrintMembers(a, ka[1..]) + "}" + x == ra[1..];
        assert PrintMembers(b, kb[1..]) + "}" + y == rb[1..];
        MembersCancel(a, b, ka[1..], kb[1..], x, y);
        assert ka == [ka[0]] + ka[1..] && kb == [kb[0]] + kb[1..];
      }
    }
  }

  lemma MemberIsWellFormed(v: Json, k: string)
    requires WellFormed(v) && v.Object? && k in Keys(v.members)
    ensures WellFormed(Member(v, k))
  {
  }

  lemma MembersStart(v: Json, keys: seq<string>, x: string)
    requires HasKeys(v, keys)
    ensures (PrintMembers(v, keys) + "}" + x)[0] == '}' <==> keys == []
  {
    if keys != [] {
      MemberThenRest(v, keys, x);
    }
  }

  // ----- Equal trees print alike -----

  function Without(b: seq<string>, i: nat): seq<string>
    requires i < |b|
  {
    b[..i] + b[i + 1..]
  }

  lemma WithoutKeeps(b: seq<string>, i: nat)
    requires i < |b| && Distinct(b)
    ensures Distinct(Without(b, i))
    ensures forall k :: k in b && k != b[i] ==> k in Without(b, i)
  {
    var rest := Without(b, i);
    assert forall j :: 0 <= j < |rest| ==> rest[j] == b[if j < i then j else j + 1];
    forall k | k in b && k != b[i]
      ensures k in rest
    {
      var j :| 0 <= j < |b| && b[j] == k;
      assert rest[if j < i then j else j - 1] == k;
    }
  }

  lemma WithoutCounts(b: seq<string>, i: nat)
    requires i < |b|
    ensures multiset(b) == multiset{b[i]} + multiset(Without(b, i))
  {
    assert b == b[..i] + [b[i]] + b[i + 1..];
  }

  lemma FirstIsAlone(a: seq<string>)
    requires a != [] && Distinct(a)
    ensures Distinct(a[1..]) && multiset(a) == multiset{a[0]} + multiset(a[1..])
    ensures forall k :: k in a[1..] ==> k in a && k != a[0]
  {
    assert a == [a[0]] + a[1..];
  }

  lemma {:induction false} DistinctSubset(a: seq<string>, b: seq<string>)
    requires Distinct(a) && Distinct(b) && |a| == |b| && forall k :: k in a ==> k in b
    ensures multiset(a) == multiset(b)
    decreases |a|
  {
    if a != [] {
      assert a[0] in b;
      var i :| 0 <= i < |b| && b[i] == a[0];
      FirstIsAlone(a);
      WithoutKeeps(b, i);
      WithoutCounts(b, i);
      hide Distinct, Without;
      DistinctSubset(a[1..], Without(b, i));
    }
  }

  lemma EqualSortsAlike(a: Json, b: Json)
    requires WellFormed(a) && WellFormed(b) && a.Object? && b.Object? && Equal(a, b)
    ensures Sort(Keys(a.members)) == Sort(Keys(b.members))
  {
    var ka, kb := Keys(a.members), Keys(b.members);
    forall k | k in ka
      ensures k in kb
    {
      var i :| 0 <= i < |ka| && ka[i] == k;
      assert a.members[i].0 in kb;
    }
    DistinctSubset(ka, kb);
    SortSorts(ka);
    SortSorts(kb);
    SortedUnique(Sort(ka), Sort(kb));
  }

  lemma {:induction false} EqualPrintsAlike(a: Json, b: Json)
    requires WellFormed(a) && WellFormed(b) && Equal(a, b)
    ensures Stringify(a) == Stringify(b)
    decreases a, 1, 0
  {
    if a.List? && b.List? {
      EqualItems(a, b, 0);
    } else if a.Object? && b.Object? {
      EqualSortsAlike(a, b);
      SortedKeysAreKeys(a);
      SortedKeysAreKeys(b);
      hide Equal, WellFormed, Sort;
      EqualMembers(a, b, Sort(Keys(a.members)));
    }
  }

  lemma {:induction false} EqualItems(a: Json, b: Json, i: nat)
    requires WellFormed(a) && WellFormed(b) && a.List? && b.List? && Equal(a, b) && i <= |a.items|
    ensures PrintItems(a, i) == PrintItems(b, i)
    decreases a, 0, |a.items| - i
  {
    if i < |a.items| {
      EqualPrintsAlike(a.items[i], b.items[i]);
      hide Stringify;
      EqualItems(a, b, i + 1);
    }
  }

  lemma EqualMember(a: Json, b: Json, k: string)
    requires WellFormed(a) && WellFormed(b) && a.Object? && b.Object? && Equal(a, b) && k in Keys(a.members)
    ensures k in Keys(b.members) && Equal(Member(a, k), Member(b, k)) && WellFormed(Member(a, k)) && WellFormed(Member(b, k))
  {
    var i := Find(a.members, k);
    assert a.members[i].0 == k && Member(a, k) == a.members[i].1;
  }

  lemma {:induction false} EqualMembers(a: Json, b: Json, keys: seq<string>)
    requires WellFormed(a) && WellFormed(b) && a.Object? && b.Object? && Equal(a, b) && HasKeys(a, keys) && HasKeys(b, keys)
    ensures PrintMembers(a, keys) == PrintMembers(b, keys)
    decreases a, 0, |keys|
  {
    hide Equal, WellFormed, Stringify, Member;
    if keys != [] {
      EqualMember(a, b, keys[0]);
      EqualPrintsAlike(Member(a, keys[0]), Member(b, keys[0]));
      EqualMembers(a, b, keys[1..]);
    }
  }

  /** Two JSON trees have one stable text exactly when they are structurally equal:
      comparing texts is comparing values, up to the order of object keys. */
  lemma SameTextIffEqual(a: Json, b: Json)
    requires WellFormed(a) && WellFormed(b)
    ensures Stringify(a) == Stringify(b) <==> Equal(a, b)
  {
    hide Stringify, Equal, WellFormed;
    if Equal(a, b) {
      EqualPrintsAlike(a, b);
    }
    if Stringify(a) == Stringify(b) {
      assert Stringify(a) + "" == Stringify(b) + "";
      TextCancels(a, b, "", "");
    }
  }

  // ----- The recursive printer with its loops -----

  /** What is still to print of a list after its first `i` items. */
  function ItemsLeft(v: Json, i: nat): string
    requires v.List? && i <= |v.items|
  {
    if i == |v.items| then "]" else (if i > 0 then "," else "") + PrintItems(v, i) + "]"
  }

  lemma ItemsLeftStep(v: Json, i: nat)
    requires v.List? && i < |v.items|
    ensures ItemsLeft(v, i) == (if i > 0 then "," else "") + Stringify(v.items[i]) + ItemsLeft(v, i + 1)
  {
    hide Stringify;
    var comma, item := if i > 0 then "," else "", Stringify(v.items[i]);
    if i + 1 < |v.items| {
      var rest := PrintItems(v, i + 1);
      assert comma + (item + "," + rest) + "]" == comma + item + ("," + rest + "]");
    } else {
      assert comma + item + "]" == comma + item + ("]");
    }
  }

  function MembersLeft(v: Json, keys: seq<string>, i: nat): string
    requires HasKeys(v, keys) && i <= |keys|
  {
    if i == |keys| then "" else (if i > 0 then "," else "") + PrintMembers(v, keys[i..])
  }

  lemma MembersLeftStep(v: Json, keys: seq<string>, i: nat)
    requires HasKeys(v, keys) && i < |keys|
    ensures MembersLeft(v, keys, i) == (if i > 0 then "," else "") + (Quote(keys[i]) + ":" + Stringify(Member(v, keys[i]))) + MembersLeft(v, keys, i + 1)
  {
    hide Stringify, Quote, Member;
    assert keys[i..][0] == keys[i] && keys[i..][1..] == keys[i + 1..];
  }

  lemma MembersGrow(v: Json, keys: seq<string>, i: nat, out: string)
    requires HasKeys(v, keys) && i < |keys| && (out == "" <==> i == 0)
    ensures out + MembersLeft(v, keys, i) ==
      (if out != "" then out + "," else out) + (Quote(keys[i]) + ":" + Stringify(Member(v, keys[i]))) + MembersLeft(v, keys, i + 1)
  {
    hide Stringify, Quote, Member, MembersLeft;
    MembersLeftStep(v, keys, i);
  }

  method Stringified(v: Json) returns (out: string)
    ensures out == Stringify(v)
    decreases v, 1
  {
    match v {
      case Null => return "null";
      case Bool(on) => return if on then "true" else "false";
      case Number(numeral) => return numeral;
      case Text(text) => return Quote(text);
      case List(_) => out := ItemsText(v);
      case Object(_) => out := MembersText(v);
    }
  }

  /** Grows a list's text item by item. */
  method ItemsText(v: Json) returns (out: string)
    requires v.List?
    ensures out == Stringify(v)
    decreases v, 0
  {
    assert Stringify(v) == "[" + ItemsLeft(v, 0);
    ItemsEnd(v);
    hide Stringify, ItemsLeft;
    out := "[";
    for i := 0 to |v.items|
      invariant Stringify(v) == out + ItemsLeft(v, i)
    {
      ItemsLeftStep(v, i);
      if i > 0 {
        out := out + ",";
      }
      var item := Stringified(v.items[i]);
      out := out + item;
    }
    out := out + "]";
  }

  /** Grows an object's text member by member, keys in sorted order. */
  method MembersText(v: Json) returns (out: string)
    requires v.Object?
    ensures out == Stringify(v)
    decreases v, 0
  {
    var keys := Sort(Keys(v.members));
    SortedKeysAreKeys(v);
    assert Stringify(v) == "{" + MembersLeft(v, keys, 0) + "}";
    MembersEnd(v, keys);
    hide Stringify, MembersLeft, Quote, Sort, Find, Member;
    ghost var body := MembersLeft(v, keys, 0);
    out := "";
    for i := 0 to |keys|
      invariant body == out + MembersLeft(v, keys, i)
      invariant out == "" <==> i == 0
    {
      MembersGrow(v, keys, i, out);
      var value := Stringified(Member(v, keys[i]));
      var one := Quote(keys[i]) + ":" + value;
      out := (if out != "" then out + "," else out) + one;
    }
    out := "{" + out + "}";
  }

  lemma ItemsEnd(v: Json)
    requires v.List?
    ensures ItemsLeft(v, |v.items|) == "]"
  {
  }

  lemma MembersEnd(v: Json, keys: seq<string>)
    requires HasKeys(v, keys)
    ensures MembersLeft(v, keys, |keys|) == ""
  {
  }
}
