/** A JSON reader, as RFC 8259 has it, and what it makes of the stable text. */
module JsonReading {
  import opened Wrappers
  import opened Ordering
  import opened StableJson
  import X = Xml

  const NOT_JSON := "Unexpected token"

  // ----- The reader -----

  /** The character an escape stands for, after its backslash, and what follows. */
  function ReadEscape(s: string): (r: Result<(char, string)>)
    ensures r.Ok? ==> |r.value.1| < |s|
  {
    if s == "" then Err(NOT_JSON)
    else match s[0]
      case '"' => Ok(('"', s[1..]))
      case '\\' => Ok(('\\', s[1..]))
      case '/' => Ok(('/', s[1..]))
      case 'b' => Ok((8 as char, s[1..]))
      case 'f' => Ok((12 as char, s[1..]))
      case 'n' => Ok((10 as char, s[1..]))
      case 'r' => Ok((13 as char, s[1..]))
      case 't' => Ok((9 as char, s[1..]))
      case 'u' =>
        if |s| < 5 || !X.IsHex(s[1]) || !X.IsHex(s[2]) || !X.IsHex(s[3]) || !X.IsHex(s[4]) then Err(NOT_JSON)
        else
          var code :- X.CodePoint(4096 * X.HexValue(s[1]) + 256 * X.HexValue(s[2]) + 16 * X.HexValue(s[3]) + X.HexValue(s[4]));
          Ok((code, s[5..]))
      case _ => Err(NOT_JSON)
  }

  /** One character of a string. */
  function ReadCharacter(s: string): (r: Result<(char, string)>)
    ensures r.Ok? ==> |r.value.1| < |s|
  {
    if s == "" || (s[0] as int) < 32 || s[0] == '"' then Err(NOT_JSON)
    else if s[0] == '\\' then ReadEscape(s[1..])
    else Ok((s[0], s[1..]))
  }

  /** The rest of a string, after its opening quote. */
  function ReadString(s: string): (r: Result<(string, string)>)
    ensures r.Ok? ==> |r.value.1| < |s|
    decreases |s|
  {
    if s != "" && s[0] == '"' then Ok(("", s[1..]))
    else
      var first :- ReadCharacter(s);
      var rest :- ReadString(first.1);
      Ok(([first.0] + rest.0, rest.1))
  }

  function NumeralLength(s: string): (n: nat)
    ensures n <= |s| && (forall i :: 0 <= i < n ==> IsNumeralChar(s[i])) && (n < |s| ==> !IsNumeralChar(s[n]))
  {
    if s == "" || !IsNumeralChar(s[0]) then 0 else 1 + NumeralLength(s[1..])
  }

  /** The value at the start of a text, and what follows it. */
  function ReadValue(s: string): (r: Result<(Json, string)>)
    ensures r.Ok? ==> |r.value.1| < |s|
    decreases |s|, 0
  {
    if s == "" then Err(NOT_JSON)
    else if "null" <= s then Ok((Null, s[4..]))
    else if "true" <= s then Ok((Bool(true), s[4..]))
    else if "false" <= s then Ok((Bool(false), s[5..]))
    else if s[0] == '"' then
      var text :- ReadString(s[1..]);
      Ok((Text(text.0), text.1))
    else if "[]" <= s then Ok((List([]), s[2..]))
    else if s[0] == '[' then
      var items :- ReadItems(s[1..]);
      Ok((List(items.0), items.1))
    else if "{}" <= s then Ok((Object([]), s[2..]))
    else if s[0] == '{' then
      var members :- ReadMembers(s[1..]);
      Ok((Object(members.0), members.1))
    else
      var n := NumeralLength(s);
      if n > 0 then Ok((Number(s[..n]), s[n..])) else Err(NOT_JSON)
  }

  function ReadItems(s: string): (r: Result<(seq<Json>, string)>)
    ensures r.Ok? ==> |r.value.1| < |s|
    decreases |s|, 1
  {
    var item :- ReadValue(s);
    if item.1 == "" then Err(NOT_JSON)
    else if item.1[0] == ']' then Ok(([item.0], item.1[1..]))
    else if item.1[0] == ',' then
      var rest :- ReadItems(item.1[1..]);
      Ok(([item.0] + rest.0, rest.1))
    else Err(NOT_JSON)
  }

  function ReadMembers(s: string): (r: Result<(seq<(string, Json)>, string)>)
    ensures r.Ok? ==> |r.value.1| < |s|
    decreases |s|, 1
  {
    if s == "" || s[0] != '"' then Err(NOT_JSON)
    else
      var key :- ReadString(s[1..]);
      if key.1 == "" || key.1[0] != ':' then Err(NOT_JSON)
      else
        var value :- ReadValue(key.1[1..]);
        if value.1 == "" then Err(NOT_JSON)
        else if value.1[0] == '}' then Ok(([(key.0, value.0)], value.1[1..]))
        else if value.1[0] == ',' then
          var rest :- ReadMembers(value.1[1..]);
          Ok(([(key.0, value.0)] + rest.0, rest.1))
        else Err(NOT_JSON)
  }

  // ----- The value with its keys in order -----

  function InOrder(v: Json): Json
    decreases v, 1, 0
  {
    match v
    case List(_) => List(ItemsInOrder(v, 0))
    case Object(members) =>
      SortKeeps(Keys(members));
      Object(MembersInOrder(v, Sort(Keys(members))))
    case _ => v
  }

  function ItemsInOrder(v: Json, i: nat): (r: seq<Json>)
    requires v.List? && i <= |v.items|
    ensures |r| == |v.items| - i
    decreases v, 0, |v.items| - i
  {
    if i == |v.items| then [] else [InOrder(v.items[i])] + ItemsInOrder(v, i + 1)
  }

  function MembersInOrder(v: Json, keys: seq<string>): (r: seq<(string, Json)>)
    requires HasKeys(v, keys)
    ensures |r| == |keys| && forall i :: 0 <= i < |r| ==> r[i].0 == keys[i]
    decreases v, 0, |keys|
  {
    if keys == [] then [] else [(keys[0], InOrder(Member(v, keys[0])))] + MembersInOrder(v, keys[1..])
  }

  // ----- Reading undoes printing -----

  lemma EscapeReads(c: char, rest: string)
    ensures ReadCharacter(Escape(c) + rest) == Ok((c, rest))
  {
    var e := Escape(c);
    var s := e + rest;
    assert s[0] == e[0] && s[|e|..] == rest;
    if e[0] == '\\' {
      var t := s[1..];
      assert t[0] == e[1] && t[|e| - 1..] == rest;
      if e[1] == 'u' {
        assert t[1] == e[2] && t[2] == e[3] && t[3] == e[4] && t[4] == e[5];
        HexReads(c as int / 16);
        HexReads(c as int % 16);
      }
    }
  }

  lemma HexReads(n: nat)
    requires n < 16
    ensures X.IsHex(HexDigit(n)) && X.HexValue(HexDigit(n)) == n
  {
  }

  lemma {:induction false} StringReads(text: string, rest: string)
    ensures ReadString(Escaped(text) + "\"" + rest) == Ok((text, rest))
    decreases |text|
  {
    hide Escape, ReadCharacter;
    var s := Escaped(text) + "\"" + rest;
    if text == "" {
      assert s[0] == '"' && s[1..] == rest;
    } else {
      var more := Escaped(text[1..]) + "\"" + rest;
      assert s == Escape(text[0]) + more;
      assert s[0] == Escape(text[0])[0];
      EscapeReads(text[0], more);
      StringReads(text[1..], rest);
      assert text == [text[0]] + text[1..];
    }
  }

  lemma QuoteReads(text: string, rest: string)
    ensures Quote(text) + rest != "" && (Quote(text) + rest)[0] == '"' && ReadString((Quote(text) + rest)[1..]) == Ok((text, rest))
  {
    assert (Quote(text) + rest)[1..] == Escaped(text) + "\"" + rest;
    StringReads(text, rest);
    hide ReadString;
  }

  lemma NumeralReads(numeral: string, rest: string)
    requires IsNumeral(numeral) && Stops(rest)
    ensures NumeralLength(numeral + rest) == |numeral|
  {
    var s := numeral + rest;
    var n := NumeralLength(s);
    assert forall i :: 0 <= i < |numeral| ==> s[i] == numeral[i];
    assert rest != "" ==> s[|numeral|] == rest[0];
  }

  lemma ScalarReads(v: Json, rest: string)
    requires WellFormed(v) && Stops(rest) && !v.List? && !v.Object?
    ensures ReadValue(Stringify(v) + rest) == Ok((v, rest))
  {
    var s := Stringify(v) + rest;
    assert s[|Stringify(v)|..] == rest && s[..|Stringify(v)|] == Stringify(v);
    match v
    case Null => assert "null" <= s;
    case Bool(on) =>
      assert s[0] == (if on then 't' else 'f') && "null"[0] == 'n' && "true"[0] == 't';
      assert Stringify(v) <= s;
    case Number(numeral) =>
      assert s[0] == numeral[0] && "null"[0] == 'n' && "true"[0] == 't' && "false"[0] == 'f' && "[]"[0] == '[' && "{}"[0] == '{';
      NumeralReads(numeral, rest);
    case Text(text) =>
      assert "null"[0] == 'n' && "true"[0] == 't' && "false"[0] == 'f';
      QuoteReads(text, rest);
  }

  /** Printing and reading gives every JSON tree back, its keys in order. */
  lemma {:induction false} ReadsBack(v: Json, rest: string)
    requires WellFormed(v) && Stops(rest)
    ensures ReadValue(Stringify(v) + rest) == Ok((InOrder(v), rest))
    decreases v, 2, 0
  {
    hide WellFormed, Stops;
    if v.List? {
      ListReads(v, rest);
    } else if v.Object? {
      ObjectReads(v, rest);
    } else {
      ScalarReads(v, rest);
      hide ReadValue, Stringify;
    }
  }

  lemma BracketOpens(s: string)
    requires s != "" && s[0] == '['
    ensures ReadValue(s) == if "[]" <= s then Ok((List([]), s[2..])) else
      match ReadItems(s[1..])
      case Ok(items) => Ok((List(items.0), items.1))
      case Err(e) => Err(e)
  {
    assert "null"[0] == 'n' && "true"[0] == 't' && "false"[0] == 'f';
    hide ReadItems, ReadMembers, ReadString, NumeralLength;
  }

  lemma BraceOpens(s: string)
    requires s != "" && s[0] == '{'
    ensures ReadValue(s) == if "{}" <= s then Ok((Object([]), s[2..])) else
      match ReadMembers(s[1..])
      case Ok(members) => Ok((Object(members.0), members.1))
      case Err(e) => Err(e)
  {
    assert "null"[0] == 'n' && "true"[0] == 't' && "false"[0] == 'f' && "[]"[0] == '[';
    hide ReadItems, ReadMembers, ReadString, NumeralLength;
  }

  lemma {:induction false} ListReads(v: Json, rest: string)
    requires WellFormed(v) && v.List?
    ensures ReadValue(Stringify(v) + rest) == Ok((InOrder(v), rest))
    decreases v, 1, 0
  {
    var s := Stringify(v) + rest;
    assert s[0] == '[';
    BracketOpens(s);
    ListText(v, rest);
    ItemsStart(v, 0, rest);
    assert "[]" <= s <==> s[1] == ']';
    assert s[1] == s[1..][0];
    if v.items == [] {
      assert s == "[]" + rest;
    } else {
      ItemsRead(v, 0, rest);
    }
    hide ReadValue, ReadItems, Stringify, PrintItems, WellFormed;
  }

  lemma {:induction false} ItemsRead(v: Json, i: nat, rest: string)
    requires WellFormed(v) && v.List? && i < |v.items|
    ensures ReadItems(PrintItems(v, i) + "]" + rest) == Ok((ItemsInOrder(v, i), rest))
    decreases v, 0, |v.items| - i
  {
    hide ReadValue, Stringify, InOrder;
    var after := AfterItem(v, i, rest);
    ItemThenRest(v, i, rest);
    assert Stops(after);
    ReadsBack(v.items[i], after);
    if i + 1 == |v.items| {
      assert after[1..] == rest;
      assert ItemsInOrder(v, i) == [InOrder(v.items[i])];
    } else {
      assert after[1..] == PrintItems(v, i + 1) + "]" + rest;
      ItemsRead(v, i + 1, rest);
    }
  }

  lemma {:induction false} ObjectReads(v: Json, rest: string)
    requires WellFormed(v) && v.Object?
    ensures ReadValue(Stringify(v) + rest) == Ok((InOrder(v), rest))
    decreases v, 1, 0
  {
    var keys := Sort(Keys(v.members));
    var s := Stringify(v) + rest;
    SortedKeysAreKeys(v);
    assert s[0] == '{';
    BraceOpens(s);
    ObjectText(v, rest);
    MembersStart(v, keys, rest);
    assert "{}" <= s <==> s[1] == '}';
    assert s[1] == s[1..][0];
    if keys == [] {
      assert s == "{}" + rest;
    } else {
      MembersRead(v, keys, rest);
    }
    hide ReadValue, ReadMembers, Stringify, PrintMembers, WellFormed, Sort, Keys, HasKeys;
  }

  lemma {:induction false} MembersRead(v: Json, keys: seq<string>, rest: string)
    requires WellFormed(v) && HasKeys(v, keys) && keys != []
    ensures ReadMembers(PrintMembers(v, keys) + "}" + rest) == Ok((MembersInOrder(v, keys), rest))
    decreases v, 0, |keys|
  {
    hide ReadValue, ReadString, Stringify, InOrder, Quote, Member, Find, WellFormed;
    var value := Member(v, keys[0]);
    var after := AfterMember(v, keys, rest);
    MemberThenRest(v, keys, rest);
    var tail := ":" + Stringify(value) + after;
    QuoteReads(keys[0], tail);
    assert tail[0] == ':' && tail[1..] == Stringify(value) + after;
    assert Stops(after);
    MemberIsWellFormed(v, keys[0]);
    ReadsBack(value, after);
    if |keys| == 1 {
      assert after[1..] == rest;
      assert MembersInOrder(v, keys) == [(keys[0], InOrder(value))];
    } else {
      assert after[1..] == PrintMembers(v, keys[1..]) + "}" + rest;
      MembersRead(v, keys[1..], rest);
    }
  }

  // ----- Only the order differs -----

  lemma {:induction false} InOrderIsEqual(v: Json)
    requires WellFormed(v)
    ensures Equal(v, InOrder(v))
    decreases v, 1, 0
  {
    if v.List? {
      forall i | 0 <= i < |v.items| ensures Equal(v.items[i], InOrder(v).items[i]) {
        InOrderIsEqual(v.items[i]);
        ItemInOrder(v, 0, i);
      }
    } else if v.Object? {
      var keys := Sort(Keys(v.members));
      SortedKeysAreKeys(v);
      forall i | 0 <= i < |v.members|
        ensures v.members[i].0 in Keys(InOrder(v).members) && Equal(v.members[i].1, Member(InOrder(v), v.members[i].0))
      {
        InOrderIsEqual(v.members[i].1);
        MemberInOrder(v, keys, i);
      }
    }
  }

  lemma {:induction false} ItemInOrder(v: Json, i: nat, k: nat)
    requires v.List? && i <= k < |v.items|
    ensures ItemsInOrder(v, i)[k - i] == InOrder(v.items[k])
    decreases k - i
  {
    hide InOrder;
    if i < k {
      ItemInOrder(v, i + 1, k);
    }
  }

  lemma {:induction false} MembersAre(v: Json, keys: seq<string>, j: nat)
    requires HasKeys(v, keys) && j < |keys|
    ensures MembersInOrder(v, keys)[j] == (keys[j], InOrder(Member(v, keys[j])))
    decreases |keys|
  {
    hide InOrder, Member;
    if j > 0 {
      MembersAre(v, keys[1..], j - 1);
    }
  }

  lemma MemberInOrder(v: Json, keys: seq<string>, i: nat)
    requires v.Object? && Distinct(Keys(v.members)) && keys == Sort(Keys(v.members)) && HasKeys(v, keys) && i < |v.members|
    ensures v.members[i].0 in Keys(InOrder(v).members) && Member(InOrder(v), v.members[i].0) == InOrder(v.members[i].1)
  {
    var k := v.members[i].0;
    assert k == Keys(v.members)[i];
    SortKeeps(Keys(v.members));
    assert k in keys;
    var j :| 0 <= j < |keys| && keys[j] == k;
    var members := InOrder(v).members;
    assert members == MembersInOrder(v, keys);
    assert Keys(members)[j] == k;
    var found := Find(members, k);
    MembersAre(v, keys, found);
    OnlyMember(v, i);
  }

  /** The stable text is JSON: reading it gives a value equal to the one printed, and
      nothing is left over. */
  lemma StableTextIsJson(v: Json)
    requires WellFormed(v)
    ensures ReadValue(Stringify(v)).Ok? && ReadValue(Stringify(v)).value.1 == "" && Equal(v, ReadValue(Stringify(v)).value.0)
  {
    hide WellFormed, Equal, ReadValue, Stringify, InOrder;
    ReadsBack(v, "");
    InOrderIsEqual(v);
    assert Stringify(v) + "" == Stringify(v);
  }
}
