/** Element trees printed with the predefined entities parse back to themselves. */
module XmlPrinting {
  import opened Wrappers
  import opened Characters
  import opened Xml
  import opened XmlNesting

  /** An element as written: its tag with any prefix, attributes in order, text, children. */
  datatype Tree = Tree(tag: string, attrs: seq<(string, string)>, text: string, children: seq<Tree>)

  /** Names as XML 1.0 section 2.3 allows them, and more: no white space or markup
      punctuation, and nothing that starts a comment, instruction or end tag. */
  predicate IsTag(s: string) {
    s != "" && s[0] != '!' && s[0] != '?' && forall i :: 0 <= i < |s| ==> !IsSpace(s[i]) && s[i] != '/' && s[i] != '>'
  }

  predicate IsAttributeName(s: string) {
    s != "" && forall i :: 0 <= i < |s| ==> !IsSpace(s[i]) && s[i] != '=' && s[i] != '/' && s[i] != '>'
  }

  predicate Printable(t: Tree) {
    && IsTag(t.tag)
    && (forall i :: 0 <= i < |t.attrs| ==> IsAttributeName(t.attrs[i].0))
    && forall i :: 0 <= i < |t.children| ==> Printable(t.children[i])
  }

  // ----- Printing -----

  function EscapeChar(c: char): (r: string)
    ensures r != "" && r[0] != '<' && (forall i :: 0 <= i < |r| ==> r[i] != '<' && r[i] != '"')
  {
    if c == '&' then "&amp;"
    else if c == '<' then "&lt;"
    else if c == '>' then "&gt;"
    else if c == '"' then "&quot;"
    else if c == '\'' then "&apos;"
    else [c]
  }

  function Escape(s: string): (r: string)
    ensures (forall i :: 0 <= i < |r| ==> r[i] != '<' && r[i] != '"') && (s == "" <==> r == "")
  {
    if s == "" then "" else EscapeChar(s[0]) + Escape(s[1..])
  }

  /** The attributes as written, followed by `rest`. */
  function PrintAttributes(attrs: seq<(string, string)>, rest: string): string {
    if attrs == [] then rest
    else " " + (attrs[0].0 + ("=" + ("\"" + (Escape(attrs[0].1) + ("\"" + PrintAttributes(attrs[1..], rest))))))
  }

  /** The element as written, followed by `rest`. */
  function PrintBefore(t: Tree, rest: string): string
    decreases t, 0
  {
    "<" + (t.tag + PrintAttributes(t.attrs, ">" + (Escape(t.text) + PrintAll(t.children, "</" + (t.tag + (">" + rest))))))
  }

  function PrintAll(children: seq<Tree>, rest: string): string
    decreases children, 1
  {
    if children == [] then rest else PrintBefore(children[0], PrintAll(children[1..], rest))
  }

  function Print(t: Tree): string {
    PrintBefore(t, "")
  }

  // ----- The node a tree stands for -----

  function AttributeMap(attrs: seq<(string, string)>, before: map<string, string>): map<string, string> {
    if attrs == [] then before else AttributeMap(attrs[1..], before[Local(attrs[0].0) := attrs[0].1])
  }

  function NodeOf(t: Tree): Node {
    Node(Local(t.tag), AttributeMap(t.attrs, map[]), seq(|t.children|, i requires 0 <= i < |t.children| => NodeOf(t.children[i])), t.text)
  }

  // ----- Entities -----

  /** Decoding undoes escaping, for every text. */
  lemma {:induction false} DecodeEscape(s: string)
    ensures Decode(Escape(s)) == Ok(s)
  {
    if s != "" {
      DecodeEscape(s[1..]);
      DecodeOne(s[0], Escape(s[1..]));
      assert s == [s[0]] + s[1..];
    }
  }

  lemma DecodeOne(c: char, rest: string)
    requires Decode(rest).Ok?
    ensures Decode(EscapeChar(c) + rest) == Ok([c] + Decode(rest).value)
  {
    var s := EscapeChar(c) + rest;
    EntityOf(c, rest);
    EntityFits(s);
    assert s[|EscapeChar(c)|..] == rest;
    hide EntityAt, EscapeChar;
  }

  lemma EntityOf(c: char, rest: string)
    ensures var s := EscapeChar(c) + rest;
      if |EscapeChar(c)| > 1 then EntityAt(s) == Some(Entity(|EscapeChar(c)|, Ok(c))) else EntityAt(s) == None && s[0] == c
  {
    var s := EscapeChar(c) + rest;
    assert forall i :: 0 <= i < |EscapeChar(c)| ==> s[i] == EscapeChar(c)[i];
    if c == '&' {
      assert "&amp;" <= s;
    } else if c == '<' {
      assert "&lt;" <= s;
      assert !("&amp;" <= s) by { assert s[1] == 'l'; assert "&amp;"[1] == 'a'; }
    } else if c == '>' {
      assert "&gt;" <= s;
      assert !("&amp;" <= s) by { assert s[1] == 'g'; assert "&amp;"[1] == 'a'; }
      assert !("&lt;" <= s) by { assert s[1] == 'g'; assert "&lt;"[1] == 'l'; }
    } else if c == '"' {
      assert "&quot;" <= s;
      assert s[1] == 'q' && "&amp;"[1] == 'a' && "&lt;"[1] == 'l' && "&gt;"[1] == 'g';
    } else if c == '\'' {
      assert "&apos;" <= s;
      assert s[1] == 'a' && s[2] == 'p' && "&amp;"[2] == 'm' && "&lt;"[1] == 'l' && "&gt;"[1] == 'g' && "&quot;"[1] == 'q';
    } else {
      assert s[0] != '&';
    }
  }

  // ----- Tokens of printed text -----

  // ----- Numeric references -----

  /** `c` is the digit `v`, in either case. */
  predicate IsDigitOf(c: char, v: nat) {
    v < 16 && (c == "0123456789abcdef"[v] || c == "0123456789ABCDEF"[v])
  }

  function Horner(digits: seq<nat>, base_: nat): nat {
    if digits == [] then 0 else base_ * Horner(digits[..|digits| - 1], base_) + digits[|digits| - 1]
  }

  predicate Spelled(s: string, digits: seq<nat>, base_: nat) {
    |s| == |digits| > 0 && forall i :: 0 <= i < |s| ==> digits[i] < base_ && IsDigitOf(s[i], digits[i])
  }

  lemma DigitValue(c: char, v: nat)
    requires IsDigitOf(c, v)
    ensures HexValue(c) == v && IsHex(c) && (v < 10 ==> IsDigit(c))
  {
  }

  lemma {:induction false} SpelledNumber(s: string, digits: seq<nat>, base_: nat)
    requires |s| == |digits| && forall i :: 0 <= i < |s| ==> digits[i] < base_ && IsDigitOf(s[i], digits[i])
    ensures NumberIn(s, base_) == Horner(digits, base_)
    decreases |s|
  {
    hide IsDigitOf, HexValue;
    if s != "" {
      SpelledNumber(s[..|s| - 1], digits[..|s| - 1], base_);
      DigitValue(s[|s| - 1], digits[|s| - 1]);
    }
  }

  predicate IsScalar(n: nat) {
    n < 0xD800 || 0xE000 <= n < 0x11_0000
  }

  lemma NotNamed(all: string)
    requires |all| >= 2 && all[0] == '&' && all[1] == '#'
    ensures !("&amp;" <= all) && !("&lt;" <= all) && !("&gt;" <= all) && !("&quot;" <= all) && !("&apos;" <= all) && "&#" <= all
    ensures "&#x" <= all <==> |all| >= 3 && all[2] == 'x'
  {
    assert "&amp;"[1] == 'a' && "&lt;"[1] == 'l' && "&gt;"[1] == 'g' && "&quot;"[1] == 'q' && "&apos;"[1] == 'a';
    assert all[..2] == "&#";
  }

  lemma HexEntity(all: string, n: nat)
    requires |all| >= 3 && all[0] == '&' && all[1] == '#' && all[2] == 'x'
    requires n == TakeWhile(all[3..], IsHex) > 0 && 3 + n < |all| && all[3 + n] == ';'
    ensures EntityAt(all) == Some(Entity(4 + n, CodePoint(NumberIn(all[3..3 + n], 16))))
  {
    NotNamed(all);
    hide NumberIn, CodePoint, TakeWhile;
  }

  lemma DecimalEntity(all: string, n: nat)
    requires |all| >= 3 && all[0] == '&' && all[1] == '#' && all[2] != 'x'
    requires n == TakeWhile(all[2..], IsDigit) > 0 && 2 + n < |all| && all[2 + n] == ';'
    ensures EntityAt(all) == Some(Entity(3 + n, CodePoint(NumberIn(all[2..2 + n], 10))))
  {
    NotNamed(all);
    hide NumberIn, CodePoint, TakeWhile;
  }

  lemma HexAt(s: string, rest: string)
    requires s != "" && forall i :: 0 <= i < |s| ==> IsHex(s[i])
    ensures EntityAt("&#x" + s + ";" + rest) == Some(Entity(4 + |s|, CodePoint(NumberIn(s, 16))))
  {
    var all := "&#x" + s + ";" + rest;
    assert !IsHex(';');
    hide EntityAt, CodePoint, NumberIn, TakeWhile, IsHex;
    assert all[0] == '&' && all[1] == '#' && all[2] == 'x';
    ReferenceParts("&#x", s, rest, IsHex);
    hide *;
    HexEntity(all, |s|);
  }

  lemma DecimalAt(s: string, rest: string)
    requires s != "" && forall i :: 0 <= i < |s| ==> IsDigit(s[i])
    ensures EntityAt("&#" + s + ";" + rest) == Some(Entity(3 + |s|, CodePoint(NumberIn(s, 10))))
  {
    var all := "&#" + s + ";" + rest;
    assert IsDigit(s[0]);
    hide EntityAt, CodePoint, NumberIn, TakeWhile, IsDigit;
    assert all[0] == '&' && all[1] == '#' && all[2] == s[0] != 'x';
    ReferenceParts("&#", s, rest, IsDigit);
    hide *;
    DecimalEntity(all, |s|);
  }

  lemma ReferenceParts(lead: string, s: string, rest: string, p: char -> bool)
    requires (forall i :: 0 <= i < |s| ==> p(s[i])) && !p(';')
    ensures var all := lead + s + ";" + rest;
      && |lead| + |s| < |all|
      && TakeWhile(all[|lead|..], p) == |s| && all[|lead| + |s|] == ';' && all[|lead|..|lead| + |s|] == s
  {
    var tail := ";" + rest;
    SplitExactly(s, tail, p);
    assert (lead + s + ";" + rest)[|lead|..] == s + tail;
    TakenIs(s, tail, p);
  }

  lemma TakenIs(s: string, tail: string, p: char -> bool)
    requires Head(s + tail, p) == s
    ensures TakeWhile(s + tail, p) == |s|
  {
  }

  lemma ReferenceAt(hex: bool, s: string, digits: seq<nat>, rest: string)
    requires Spelled(s, digits, if hex then 16 else 10)
    ensures var text := (if hex then "&#x" else "&#") + s + ";";
      EntityAt(text + rest) == Some(Entity(|text|, CodePoint(Horner(digits, if hex then 16 else 10))))
  {
    hide NumberIn, Horner, CodePoint, EntityAt, IsHex, IsDigit;
    forall i | 0 <= i < |s| ensures IsHex(s[i]) && (!hex ==> IsDigit(s[i])) {
      DigitValue(s[i], digits[i]);
    }
    SpelledNumber(s, digits, if hex then 16 else 10);
    hide IsDigitOf;
    if hex {
      HexAt(s, rest);
    } else {
      DecimalAt(s, rest);
    }
  }

  /** A numeric reference, decimal or hexadecimal, stands for the character of that number. */
  lemma NumericReference(hex: bool, s: string, digits: seq<nat>, rest: string)
    requires Spelled(s, digits, if hex then 16 else 10) && IsScalar(Horner(digits, if hex then 16 else 10)) && Decode(rest).Ok?
    ensures Decode((if hex then "&#x" else "&#") + s + ";" + rest) == Ok([Horner(digits, if hex then 16 else 10) as char] + Decode(rest).value)
  {
    ReferenceAt(hex, s, digits, rest);
    var text := (if hex then "&#x" else "&#") + s + ";";
    assert (text + rest)[|text|..] == rest;
    hide EntityAt, Horner, Spelled;
  }

  lemma QuotedLexes(e: string, rest: string)
    requires forall i :: 0 <= i < |e| ==> e[i] != '"'
    ensures Quoted("\"" + (e + ("\"" + rest))) == Some((e, rest))
  {
    hide Head, Tail;
    var s := "\"" + (e + ("\"" + rest));
    assert s[1..] == e + ("\"" + rest);
    SplitExactly(e, "\"" + rest, NotDouble);
    assert ("\"" + rest)[1..] == rest;
  }

  lemma EqualsLexes(quoted: string)
    requires quoted != "" && quoted[0] == '"'
    ensures AfterEquals("=" + quoted) == Some(quoted)
  {
    hide Head, Tail;
    assert "" + ("=" + quoted) == "=" + quoted && "" + quoted == quoted;
    SplitExactly("", "=" + quoted, IsSpace);
    SplitExactly("", quoted, IsSpace);
    assert ("=" + quoted)[1..] == quoted;
  }

  lemma AttributeOf(s: string, named: string, name: string, after: string, value: string, q: (string, string))
    requires Head(s, IsSpace) != "" && Tail(s, IsSpace) == named
    requires Head(named, InAttributeName) == name != "" && Tail(named, InAttributeName) == after
    requires AfterEquals(after) == Some(value) && Quoted(value) == Some(q)
    ensures Attribute(s) == Some((name, q.0, q.1))
  {
    hide Head, Tail, Quoted, AfterEquals;
  }

  lemma AttributeLexes(name: string, e: string, rest: string)
    requires IsAttributeName(name) && forall i :: 0 <= i < |e| ==> e[i] != '"'
    ensures Attribute(" " + (name + ("=" + ("\"" + (e + ("\"" + rest)))))) == Some((name, e, rest))
  {
    hide Head, Tail, Quoted, AfterEquals, Attribute;
    var quoted := "\"" + (e + ("\"" + rest));
    assert quoted[0] == '"';
    QuotedLexes(e, rest);
    EqualsLexes(quoted);
    var after := "=" + quoted;
    SplitExactly(name, after, InAttributeName);
    var named := name + after;
    assert named[0] == name[0];
    SplitExactly(" ", named, IsSpace);
    AttributeOf(" " + named, named, name, after, quoted, (e, rest));
  }

  lemma {:induction false} AttributesLex(attrs: seq<(string, string)>, before: map<string, string>, rest: string)
    requires forall i :: 0 <= i < |attrs| ==> IsAttributeName(attrs[i].0)
    requires rest != "" && !IsSpace(rest[0])
    ensures Attributes(PrintAttributes(attrs, rest), before) == Ok((AttributeMap(attrs, before), rest))
    decreases |attrs|
  {
    hide Attribute, Decode, IsAttributeName, Escape;
    if attrs == [] {
      NoAttribute(rest);
    } else {
      var name, value := attrs[0].0, attrs[0].1;
      var more := PrintAttributes(attrs[1..], rest);
      assert IsAttributeName(name);
      AttributeLexes(name, Escape(value), more);
      DecodeEscape(value);
      AttributesLex(attrs[1..], before[Local(name) := value], rest);
    }
  }

  lemma NoAttribute(rest: string)
    requires rest != "" && !IsSpace(rest[0])
    ensures Attribute(rest) == None
  {
  }

  lemma NotMarkup(s: string)
    requires |s| > 1 && s[0] == '<' && s[1] != '!' && s[1] != '?'
    ensures !("<!--" <= s) && !("<![CDATA[" <= s) && !("<?" <= s) && !("<!DOCTYPE" <= s)
  {
    assert "<!--"[1] == '!' && "<![CDATA["[1] == '!' && "<?"[1] == '?' && "<!DOCTYPE"[1] == '!';
  }

  lemma AttributesStart(attrs: seq<(string, string)>, rest: string)
    requires rest != ""
    ensures var s := PrintAttributes(attrs, rest); s != "" && (s[0] == ' ' || s[0] == rest[0])
  {
    hide Escape;
  }

  lemma OpenPart(tag: string, attrs: seq<(string, string)>, rest: string)
    requires IsTag(tag) && forall i :: 0 <= i < |attrs| ==> IsAttributeName(attrs[i].0)
    ensures LexOpen("<" + (tag + PrintAttributes(attrs, ">" + rest))) == Ok((OpenTag(tag, AttributeMap(attrs, map[]), false), rest))
  {
    hide Head, Tail, PrintAttributes, Attributes, AttributeMap;
    var last := ">" + rest;
    var printed := PrintAttributes(attrs, last);
    AttributesStart(attrs, last);
    AttributesLex(attrs, map[], last);
    SplitExactly(tag, printed, InTagName);
    assert ("<" + (tag + printed))[1..] == tag + printed;
    assert "" + last == last;
    SplitExactly("", last, IsSpace);
    assert last[1..] == rest;
  }

  lemma OpenLexes(tag: string, attrs: seq<(string, string)>, rest: string)
    requires IsTag(tag) && forall i :: 0 <= i < |attrs| ==> IsAttributeName(attrs[i].0)
    ensures Lex("<" + (tag + PrintAttributes(attrs, ">" + rest))) == Ok((OpenTag(tag, AttributeMap(attrs, map[]), false), rest))
  {
    hide LexOpen, PrintAttributes, AttributeMap;
    var s := "<" + (tag + PrintAttributes(attrs, ">" + rest));
    OpenPart(tag, attrs, rest);
    assert s[0] == '<' && s[1] == tag[0];
    NotMarkup(s);
    assert !("</" <= s) by { assert "</"[1] == '/' && InTagName(tag[0]); }
  }

  lemma CloseLexes(tag: string, rest: string)
    requires IsTag(tag)
    ensures Lex("</" + (tag + (">" + rest))) == Ok((CloseTag(tag), rest))
  {
    hide Head, Tail;
    var s := "</" + (tag + (">" + rest));
    NotMarkup(s);
    assert s[2..] == tag + (">" + rest);
    SplitExactly(tag, ">" + rest, InCloseName);
    assert "" + (">" + rest) == ">" + rest;
    SplitExactly("", ">" + rest, IsSpace);
    assert (">" + rest)[1..] == rest;
    assert "</" <= s;
  }

  lemma TextLexes(text: string, rest: string)
    requires text != "" && rest != "" && rest[0] == '<'
    ensures Escape(text) + rest != "" && Lex(Escape(text) + rest) == Ok((Text(text), rest))
  {
    hide Head, Tail, Decode;
    var e := Escape(text);
    var s := e + rest;
    assert s[0] == e[0] != '<';
    assert "<!--"[0] == '<' && "<![CDATA["[0] == '<' && "<?"[0] == '<' && "<!DOCTYPE"[0] == '<' && "</"[0] == '<';
    SplitExactly(e, rest, NotOpening);
    DecodeEscape(text);
  }

  lemma TokenThenRest(s: string, rest: string, token: Token)
    requires s != "" && Lex(s) == Ok((token, rest)) && Tokenize(rest).Ok?
    ensures Tokenize(s) == Ok([token] + Tokenize(rest).value)
  {
    hide Lex;
  }

  function ItemOf(t: Tree): Item
    decreases t, 0
  {
    Element(t.tag, AttributeMap(t.attrs, map[]), Some(t.tag), (if t.text == "" then [] else [Chars(t.text)]) + ItemsOf(t.children))
  }

  function ItemsOf(children: seq<Tree>): seq<Item>
    decreases children, 1
  {
    if children == [] then [] else [ItemOf(children[0])] + ItemsOf(children[1..])
  }

  lemma BodyStarts(children: seq<Tree>, rest: string)
    requires rest != "" && rest[0] == '<'
    ensures PrintAll(children, rest) != "" && PrintAll(children, rest)[0] == '<'
  {
  }

  lemma TextTokens(text: string, body: string)
    requires body != "" && body[0] == '<' && Tokenize(body).Ok?
    ensures Tokenize(Escape(text) + body) == Ok((if text == "" then [] else [Text(text)]) + Tokenize(body).value)
  {
    hide Tokenize, Lex;
    if text == "" {
      assert Escape(text) + body == body;
      assert [] + Tokenize(body).value == Tokenize(body).value;
    } else {
      TextLexes(text, body);
      TokenThenRest(Escape(text) + body, body, Text(text));
    }
  }

  lemma ItemTokens(t: Tree)
    ensures TokensOfItem(ItemOf(t)) ==
      [OpenTag(t.tag, AttributeMap(t.attrs, map[]), false)] + ((if t.text == "" then [] else [Text(t.text)]) + (TokensOf(ItemsOf(t.children)) + [CloseTag(t.tag)]))
  {
    var content := (if t.text == "" then [] else [Chars(t.text)]) + ItemsOf(t.children);
    if t.text == "" {
      assert content == ItemsOf(t.children);
    } else {
      assert content[1..] == ItemsOf(t.children);
      assert TokensOf(content) == [Text(t.text)] + TokensOf(ItemsOf(t.children));
    }
    hide TokensOf, AttributeMap, ItemsOf;
    assert TokensOfItem(ItemOf(t)) == [OpenTag(t.tag, AttributeMap(t.attrs, map[]), false)] + TokensOf(content) + [CloseTag(t.tag)];
  }

  lemma Regroup(o: seq<Token>, x: seq<Token>, c: seq<Token>, k: seq<Token>, r: seq<Token>)
    ensures o + (x + (c + (k + r))) == o + (x + (c + k)) + r
  {
  }

  /** A printed tree is lexed as the tokens of its element, whatever follows. */
  lemma {:induction false} PrintedTokens(t: Tree, rest: string)
    requires Printable(t) && Tokenize(rest).Ok?
    ensures Tokenize(PrintBefore(t, rest)) == Ok(TokensOfItem(ItemOf(t)) + Tokenize(rest).value)
    decreases t, 0
  {
    var close := "</" + (t.tag + (">" + rest));
    var body := PrintAll(t.children, close);
    var inside := Escape(t.text) + body;
    assert PrintBefore(t, rest) == "<" + (t.tag + PrintAttributes(t.attrs, ">" + inside));
    hide Tokenize, Lex, Escape, PrintBefore, PrintAll, TokensOf, TokensOfItem, IsTag, ItemOf, ItemsOf, PrintAttributes, IsAttributeName;
    CloseLexes(t.tag, rest);
    TokenThenRest(close, rest, CloseTag(t.tag));
    PrintedAll(t.children, close);
    BodyStarts(t.children, close);
    TextTokens(t.text, body);
    OpenLexes(t.tag, t.attrs, inside);
    TokenThenRest(PrintBefore(t, rest), inside, OpenTag(t.tag, AttributeMap(t.attrs, map[]), false));
    ItemTokens(t);
    Regroup([OpenTag(t.tag, AttributeMap(t.attrs, map[]), false)], if t.text == "" then [] else [Text(t.text)], TokensOf(ItemsOf(t.children)), [CloseTag(t.tag)], Tokenize(rest).value);
  }

  lemma {:induction false} PrintedAll(children: seq<Tree>, rest: string)
    requires (forall i :: 0 <= i < |children| ==> Printable(children[i])) && Tokenize(rest).Ok?
    ensures Tokenize(PrintAll(children, rest)) == Ok(TokensOf(ItemsOf(children)) + Tokenize(rest).value)
    decreases children, 1
  {
    hide Tokenize, Printable, PrintBefore;
    if children == [] {
      assert TokensOf([]) == [];
      assert TokensOf(ItemsOf(children)) + Tokenize(rest).value == Tokenize(rest).value;
    } else {
      PrintedAll(children[1..], rest);
      PrintedTokens(children[0], PrintAll(children[1..], rest));
      ItemsFirst(children);
      assert TokensOfItem(ItemOf(children[0])) + (TokensOf(ItemsOf(children[1..])) + Tokenize(rest).value) == TokensOf(ItemsOf(children)) + Tokenize(rest).value;
    }
  }

  lemma ItemsFirst(children: seq<Tree>)
    requires children != []
    ensures TokensOf(ItemsOf(children)) == TokensOfItem(ItemOf(children[0])) + TokensOf(ItemsOf(children[1..]))
  {
    assert ItemsOf(children)[1..] == ItemsOf(children[1..]);
  }

  // ----- The tree that is read -----

  lemma {:induction false} PrintedIsNested(t: Tree)
    ensures NestedItem(ItemOf(t))
    decreases t, 0
  {
    PrintedAreNested(t.children);
    if t.text != "" {
      var content := [Chars(t.text)] + ItemsOf(t.children);
      assert content[1..] == ItemsOf(t.children);
      assert Nested(content);
    } else {
      assert [] + ItemsOf(t.children) == ItemsOf(t.children);
    }
  }

  lemma {:induction false} PrintedAreNested(children: seq<Tree>)
    ensures Nested(ItemsOf(children))
    decreases children, 1
  {
    if children != [] {
      PrintedIsNested(children[0]);
      PrintedAreNested(children[1..]);
      assert ItemsOf(children)[1..] == ItemsOf(children[1..]);
    }
  }

  function Nodes(children: seq<Tree>): seq<Node> {
    seq(|children|, i requires 0 <= i < |children| => NodeOf(children[i]))
  }

  lemma {:induction false} ReadItem(n: Node, t: Tree)
    ensures AddItem(n, ItemOf(t)) == Add(n, NodeOf(t))
    decreases t, 0
  {
    var empty := Node(Local(t.tag), AttributeMap(t.attrs, map[]), [], "");
    var content := (if t.text == "" then [] else [Chars(t.text)]) + ItemsOf(t.children);
    ReadItems(empty.(text := t.text), t.children);
    if t.text == "" {
      assert content == ItemsOf(t.children);
    } else {
      assert content[1..] == ItemsOf(t.children);
      assert "" + t.text == t.text;
    }
    assert [] + Nodes(t.children) == Nodes(t.children);
    assert NodeOf(t).children == Nodes(t.children);
    assert Content(empty, content) == empty.(text := t.text, children := Nodes(t.children));
  }

  lemma {:induction false} ReadItems(n: Node, children: seq<Tree>)
    ensures Content(n, ItemsOf(children)) == n.(children := n.children + Nodes(children))
    decreases children, 1
  {
    hide NodeOf, ItemOf, AddItem, AttributeMap;
    if children == [] {
      assert n.children + Nodes(children) == n.children;
    } else {
      var next := Add(n, NodeOf(children[0]));
      assert ItemsOf(children)[1..] == ItemsOf(children[1..]);
      ReadItem(n, children[0]);
      ReadItems(next, children[1..]);
      NodesStep(children);
      hide Nodes, ItemsOf;
      assert n.children + ([NodeOf(children[0])] + Nodes(children[1..])) == next.children + Nodes(children[1..]);
    }
  }

  lemma NodesStep(children: seq<Tree>)
    requires children != []
    ensures Nodes(children) == [NodeOf(children[0])] + Nodes(children[1..])
  {
    hide NodeOf;
  }

  /** Any element tree, printed with the predefined entities, is read back as itself,
      without prefixes. */
  lemma PrintedParses(t: Tree)
    requires Printable(t)
    ensures ParseFrom([ROOT], Print(t)) == Ok(Add(ROOT, NodeOf(t)))
  {
    hide Tokenize, Printable, PrintBefore, TokensOf, TokensOfItem, Run, Content, NodeOf, NestedItem;
    assert Tokenize("") == Ok([]) by {
      NothingLexes();
    }
    PrintedTokens(t, "");
    ParseIsBuild([ROOT], Print(t));
    PrintedIsNested(t);
    OneItem(t);
    BuildsContent([ItemOf(t)]);
    ReadItem(ROOT, t);
  }

  lemma NothingLexes()
    ensures Tokenize("") == Ok([])
  {
  }

  lemma OneItem(t: Tree)
    requires NestedItem(ItemOf(t))
    ensures TokensOf([ItemOf(t)]) == TokensOfItem(ItemOf(t)) + [] && Nested([ItemOf(t)])
    ensures Content(ROOT, [ItemOf(t)]) == AddItem(ROOT, ItemOf(t))
  {
    assert [ItemOf(t)][1..] == [];
    assert TokensOf([]) == [] && Nested([]);
  }
}
