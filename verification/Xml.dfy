/** The small XML reader behind camt.053: tokens, nesting and entities. */
module Xml {
  import opened Wrappers
  import opened Characters

  datatype Node = Node(name: string, attrs: map<string, string>, children: seq<Node>, text: string)

  datatype Token = Skipped | Text(text: string) | OpenTag(name: string, attrs: map<string, string>, empty: bool) | CloseTag(name: string)

  // ----- Names and entities -----

  /** A name without its namespace prefix. */
  function Local(name: string): string {
    if exists i :: 0 <= i < |name| && name[i] == ':' then AfterColon(name) else name
  }

  function AfterColon(name: string): string {
    if name == "" then "" else if name[0] == ':' then name[1..] else AfterColon(name[1..])
  }

  /** The prefix up to the first colon goes; a name without a colon stays. */
  lemma {:induction false} LocalDropsPrefix(prefix: string, name: string)
    requires ':' !in prefix
    ensures Local(prefix + ":" + name) == name
    ensures Local(prefix) == prefix
  {
    assert (prefix + ":" + name)[|prefix|] == ':';
    ColonFound(prefix, name);
  }

  lemma {:induction false} ColonFound(prefix: string, name: string)
    requires ':' !in prefix
    ensures AfterColon(prefix + ":" + name) == name
    decreases |prefix|
  {
    var whole := prefix + ":" + name;
    if prefix == "" {
      assert whole[1..] == name;
    } else {
      assert whole[1..] == prefix[1..] + ":" + name;
      ColonFound(prefix[1..], name);
    }
  }

  predicate IsHex(c: char) {
    IsDigit(c) || 'a' <= c <= 'f' || 'A' <= c <= 'F'
  }

  function HexValue(c: char): nat {
    if IsDigit(c) then c as int - '0' as int
    else if 'a' <= c <= 'f' then c as int - 'a' as int + 10
    else if 'A' <= c <= 'F' then c as int - 'A' as int + 10
    else 0
  }

  function NumberIn(s: string, base_: nat): nat {
    if s == "" then 0 else base_ * NumberIn(s[..|s| - 1], base_) + HexValue(s[|s| - 1])
  }

  function TakeWhile(s: string, p: char -> bool): (n: nat)
    ensures n <= |s| && (forall i :: 0 <= i < n ==> p(s[i])) && (n < |s| ==> !p(s[n]))
  {
    if s == "" || !p(s[0]) then 0 else 1 + TakeWhile(s[1..], p)
  }

  /** The longest start of `s` whose characters all satisfy `p`, and what follows it. */
  function Head(s: string, p: char -> bool): string {
    s[..TakeWhile(s, p)]
  }

  function Tail(s: string, p: char -> bool): (r: string)
    ensures |r| <= |s|
  {
    s[TakeWhile(s, p)..]
  }

  lemma SplitExactly(a: string, rest: string, p: char -> bool)
    requires (forall i :: 0 <= i < |a| ==> p(a[i])) && (rest == "" || !p(rest[0]))
    ensures Head(a + rest, p) == a && Tail(a + rest, p) == rest
  {
    var s := a + rest;
    var n := TakeWhile(s, p);
    assert forall i :: 0 <= i < |a| ==> s[i] == a[i];
    assert rest != "" ==> s[|a|] == rest[0];
    assert n == |a|;
  }

  /** `rest` is an end of `s`. */
  predicate EndOf(rest: string, s: string) {
    |rest| <= |s| && s[|s| - |rest|..] == rest
  }

  lemma EndOfEnd(a: string, b: string, c: string)
    requires EndOf(a, b) && EndOf(b, c)
    ensures EndOf(a, c)
  {
    assert a == b[|b| - |a|..] == c[|c| - |b|..][|b| - |a|..];
  }

  /** A replaced entity: how much text it covers and the character it stands for,
      if there is such a code point. */
  datatype Entity = Entity(length: nat, char_: Result<char>)

  function CodePoint(n: nat): Result<char> {
    if n < 0xD800 || 0xE000 <= n < 0x11_0000 then Ok(n as char) else Err("Invalid code point")
  }

  /** The reference at the start of `s`, if the text there is one. */
  function EntityAt(s: string): Option<Entity> {
    if "&amp;" <= s then Some(Entity(5, Ok('&')))
    else if "&lt;" <= s then Some(Entity(4, Ok('<')))
    else if "&gt;" <= s then Some(Entity(4, Ok('>')))
    else if "&quot;" <= s then Some(Entity(6, Ok('"')))
    else if "&apos;" <= s then Some(Entity(6, Ok('\'')))
    else if "&#x" <= s then
      var n := TakeWhile(s[3..], IsHex);
      if n > 0 && 3 + n < |s| && s[3 + n] == ';' then Some(Entity(4 + n, CodePoint(NumberIn(s[3..3 + n], 16)))) else None
    else if "&#" <= s then
      var n := TakeWhile(s[2..], IsDigit);
      if n > 0 && 2 + n < |s| && s[2 + n] == ';' then Some(Entity(3 + n, CodePoint(NumberIn(s[2..2 + n], 10)))) else None
    else None
  }

  lemma EntityFits(s: string)
    ensures EntityAt(s).Some? ==> 0 < EntityAt(s).value.length <= |s|
  {
  }

  function Decode(s: string): Result<string>
    decreases |s|
  {
    if s == "" then Ok("")
    else
      EntityFits(s);
      match EntityAt(s)
      case Some(e) =>
        var c :- e.char_;
        var rest :- Decode(s[e.length..]);
        Ok([c] + rest)
      case None =>
        var rest :- Decode(s[1..]);
        Ok([s[0]] + rest)
  }

  // ----- Tokens -----

  predicate InTagName(c: char) {
    !IsSpace(c) && c != '/' && c != '>'
  }

  predicate InCloseName(c: char) {
    !IsSpace(c) && c != '>'
  }

  predicate InAttributeName(c: char) {
    !IsSpace(c) && c != '=' && c != '/' && c != '>'
  }

  predicate NotDouble(c: char) {
    c != '"'
  }

  predicate NotSingle(c: char) {
    c != '\''
  }

  predicate NotAngle(c: char) {
    c != '>'
  }

  predicate NotOpening(c: char) {
    c != '<'
  }

  /** Where `end` first occurs, if it does. */
  function Find(s: string, end: string): (at: Option<nat>)
    ensures at.Some? ==> at.value + |end| <= |s|
  {
    if end <= s then Some(0)
    else if s == "" then None
    else match Find(s[1..], end)
      case Some(n) => Some(n + 1)
      case None => None
  }

  /** The quoted value at the start of `s`, and what follows it. */
  function Quoted(s: string): (q: Option<(string, string)>)
    ensures q.Some? ==> |q.value.1| < |s|
  {
    if s != "" && s[0] == '"' && Tail(s[1..], NotDouble) != "" then Some((Head(s[1..], NotDouble), Tail(s[1..], NotDouble)[1..]))
    else if s != "" && s[0] == '\'' && Tail(s[1..], NotSingle) != "" then Some((Head(s[1..], NotSingle), Tail(s[1..], NotSingle)[1..]))
    else None
  }

  /** What follows the white space and equals sign after an attribute's name. */
  function AfterEquals(s: string): (r: Option<string>)
    ensures r.Some? ==> |r.value| < |s|
  {
    var t := Tail(s, IsSpace);
    if t != "" && t[0] == '=' then Some(Tail(t[1..], IsSpace)) else None
  }

  /** One attribute with the white space before it: name, raw value, and what follows. */
  function Attribute(s: string): (a: Option<(string, string, string)>)
    ensures a.Some? ==> |a.value.2| < |s|
  {
    var named := Tail(s, IsSpace);
    var value := AfterEquals(Tail(named, InAttributeName));
    if Head(s, IsSpace) == "" || Head(named, InAttributeName) == "" || value.None? then None
    else match Quoted(value.value)
      case Some(q) => Some((Head(named, InAttributeName), q.0, q.1))
      case None => None
  }

  /** As many attributes as follow, with decoded values, and what follows them. */
  function Attributes(s: string, attrs: map<string, string>): (r: Result<(map<string, string>, string)>)
    ensures r.Ok? ==> |r.value.1| <= |s|
    decreases |s|
  {
    match Attribute(s)
    case None => Ok((attrs, s))
    case Some(a) =>
      var value :- Decode(a.1);
      Attributes(a.2, attrs[Local(a.0) := value])
  }

  const MALFORMED := "Malformed camt.053 XML"

  /** What lies between `open` at the start of `s` and the next `end`, and what follows. */
  function Between(s: string, open: string, end: string): (b: Option<(string, string)>)
    ensures b.Some? ==> |b.value.1| <= |s| - |open|
  {
    if !(open <= s) then None
    else match Find(s[|open|..], end)
      case Some(n) => Some((s[|open|..][..n], s[|open|..][n + |end|..]))
      case None => None
  }

  function LexClose(s: string): (r: Option<(Token, string)>)
    ensures r.Some? ==> |r.value.1| < |s|
  {
    if !("</" <= s) then None
    else
      var name := Head(s[2..], InCloseName);
      var after := Tail(Tail(s[2..], InCloseName), IsSpace);
      if name != "" && after != "" && after[0] == '>' then Some((CloseTag(name), after[1..])) else None
  }

  function LexOpen(s: string): (r: Result<(Token, string)>)
    requires s != ""
    ensures r.Ok? ==> |r.value.1| < |s|
  {
    var name := Head(s[1..], InTagName);
    var attrs :- Attributes(Tail(s[1..], InTagName), map[]);
    var after := Tail(attrs.1, IsSpace);
    if name != "" && after != "" && after[0] == '>' then Ok((OpenTag(name, attrs.0, false), after[1..]))
    else if name != "" && |after| > 1 && after[0] == '/' && after[1] == '>' then Ok((OpenTag(name, attrs.0, true), after[2..]))
    else Err(MALFORMED)
  }

  /** A document type, which the reader skips without looking inside. */
  function LexDoctype(s: string): (r: Option<string>)
    ensures r.Some? ==> |r.value| < |s|
  {
    if "<!DOCTYPE" <= s && Tail(s[9..], NotAngle) != "" then Some(Tail(s[9..], NotAngle)[1..]) else None
  }

  /** The token at the start of `s` and what follows: the first of the seven forms that matches. */
  function Lex(s: string): (r: Result<(Token, string)>)
    requires s != ""
    ensures r.Ok? ==> |r.value.1| < |s|
  {
    var comment := Between(s, "<!--", "-->");
    var cdata := Between(s, "<![CDATA[", "]]>");
    var instruction := Between(s, "<?", "?>");
    if comment.Some? then Ok((Skipped, comment.value.1))
    else if cdata.Some? then Ok((Text(cdata.value.0), cdata.value.1))
    else if instruction.Some? then Ok((Skipped, instruction.value.1))
    else if LexDoctype(s).Some? then Ok((Skipped, LexDoctype(s).value))
    else if LexClose(s).Some? then Ok(LexClose(s).value)
    else if s[0] == '<' then LexOpen(s)
    else
      var text :- Decode(Head(s, NotOpening));
      Ok((Text(text), Tail(s, NotOpening)))
  }

  // ----- Lexing moves to an end of the text -----

  lemma QuotedEnds(s: string)
    ensures Quoted(s).Some? ==> EndOf(Quoted(s).value.1, s)
  {
  }

  lemma TailEnds(s: string, p: char -> bool)
    ensures EndOf(Tail(s, p), s)
  {
  }

  lemma DropEnds(s: string, n: nat)
    requires n <= |s|
    ensures EndOf(s[n..], s)
  {
  }

  lemma AfterEqualsEnds(s: string)
    ensures AfterEquals(s).Some? ==> EndOf(AfterEquals(s).value, s)
  {
    hide EndOf, Tail;
    if AfterEquals(s).Some? {
      var t := Tail(s, IsSpace);
      TailEnds(s, IsSpace);
      DropEnds(t, 1);
      TailEnds(t[1..], IsSpace);
      EndOfEnd(t[1..], t, s);
      EndOfEnd(AfterEquals(s).value, t[1..], s);
    }
  }

  lemma AttributeEnds(s: string)
    ensures Attribute(s).Some? ==> EndOf(Attribute(s).value.2, s)
  {
    hide EndOf, Tail, Head, Quoted, AfterEquals;
    if Attribute(s).Some? {
      var named := Tail(s, IsSpace);
      var after := Tail(named, InAttributeName);
      var value := AfterEquals(after).value;
      TailEnds(s, IsSpace);
      TailEnds(named, InAttributeName);
      AfterEqualsEnds(after);
      QuotedEnds(value);
      EndOfEnd(after, named, s);
      EndOfEnd(value, after, s);
      EndOfEnd(Quoted(value).value.1, value, s);
    }
  }

  lemma {:induction false} AttributesEnd(s: string, attrs: map<string, string>)
    ensures Attributes(s, attrs).Ok? ==> EndOf(Attributes(s, attrs).value.1, s)
    decreases |s|
  {
    hide Attribute, Decode;
    if Attributes(s, attrs).Ok? && Attribute(s).Some? {
      var a := Attribute(s).value;
      AttributeEnds(s);
      AttributesEnd(a.2, attrs[Local(a.0) := Decode(a.1).value]);
      EndOfEnd(Attributes(s, attrs).value.1, a.2, s);
    }
  }

  lemma LexOpenEnds(s: string)
    requires s != ""
    ensures LexOpen(s).Ok? ==> EndOf(LexOpen(s).value.1, s)
  {
    hide EndOf, Tail, Head, Attributes;
    if LexOpen(s).Ok? {
      var t := Tail(s[1..], InTagName);
      var rest := Attributes(t, map[]).value.1;
      var after := Tail(rest, IsSpace);
      DropEnds(s, 1);
      TailEnds(s[1..], InTagName);
      EndOfEnd(t, s[1..], s);
      AttributesEnd(t, map[]);
      EndOfEnd(rest, t, s);
      TailEnds(rest, IsSpace);
      EndOfEnd(after, rest, s);
      DropEnds(after, if after[0] == '>' then 1 else 2);
      EndOfEnd(LexOpen(s).value.1, after, s);
    }
  }

  lemma LexCloseEnds(s: string)
    ensures LexClose(s).Some? ==> EndOf(LexClose(s).value.1, s)
  {
    if LexClose(s).Some? {
      var t := Tail(s[2..], InCloseName);
      EndOfEnd(Tail(t, IsSpace), t, s);
      EndOfEnd(LexClose(s).value.1, Tail(t, IsSpace), s);
    }
  }

  lemma BetweenEnds(s: string, open: string, end: string)
    ensures Between(s, open, end).Some? ==> EndOf(Between(s, open, end).value.1, s)
  {
    if Between(s, open, end).Some? {
      EndOfEnd(Between(s, open, end).value.1, s[|open|..], s);
    }
  }

  lemma DoctypeEnds(s: string)
    ensures LexDoctype(s).Some? ==> EndOf(LexDoctype(s).value, s)
  {
    if LexDoctype(s).Some? {
      EndOfEnd(LexDoctype(s).value, s[9..], s);
    }
  }

  lemma LexEnds(s: string)
    requires s != ""
    ensures Lex(s).Ok? ==> EndOf(Lex(s).value.1, s)
  {
    hide Between, LexDoctype, LexClose, LexOpen, Decode, Tail, Head, EndOf;
    BetweenEnds(s, "<!--", "-->");
    BetweenEnds(s, "<![CDATA[", "]]>");
    BetweenEnds(s, "<?", "?>");
    DoctypeEnds(s);
    LexCloseEnds(s);
    LexOpenEnds(s);
    TailEnds(s, NotOpening);
  }

  function Tokenize(s: string): Result<seq<Token>>
    decreases |s|
  {
    if s == "" then Ok([])
    else
      var first :- Lex(s);
      var rest :- Tokenize(first.1);
      Ok([first.0] + rest)
  }

  // ----- The stack machine -----

  const UNCLOSED := "Malformed camt.053 XML: unclosed element"

  const ROOT := Node("", map[], [], "")

  function Add(parent: Node, child: Node): Node {
    parent.(children := parent.children + [child])
  }

  /** One token on the stack of unfinished elements; a finished one joins its parent. */
  function Advance(stack: seq<Node>, token: Token): Result<seq<Node>>
    requires stack != []
  {
    var top := stack[|stack| - 1];
    match token
    case Skipped => Ok(stack)
    case Text(text) => Ok(stack[|stack| - 1 := top.(text := top.text + text)])
    case OpenTag(name, attrs, empty) =>
      var node := Node(Local(name), attrs, [], "");
      if empty then Ok(stack[|stack| - 1 := Add(top, node)]) else Ok(stack + [node])
    case CloseTag(name) =>
      if |stack| < 2 || Local(name) != top.name then Err("Malformed camt.053 XML: mismatched closing tag")
      else Ok(stack[..|stack| - 2] + [Add(stack[|stack| - 2], top)])
  }

  lemma AdvanceKeepsRoot(stack: seq<Node>, token: Token)
    requires stack != []
    ensures Advance(stack, token).Ok? ==> Advance(stack, token).value != []
  {
  }

  function Run(stack: seq<Node>, tokens: seq<Token>): Result<seq<Node>>
    requires stack != []
    decreases |tokens|
  {
    if tokens == [] then Ok(stack)
    else
      AdvanceKeepsRoot(stack, tokens[0]);
      var next :- Advance(stack, tokens[0]);
      Run(next, tokens[1..])
  }

  function Build(tokens: seq<Token>): Result<Node> {
    var stack :- Run([ROOT], tokens);
    if |stack| != 1 then Err(UNCLOSED) else Ok(stack[0])
  }

  function ParseFrom(stack: seq<Node>, s: string): Result<Node>
    requires stack != []
    decreases |s|
  {
    if s == "" then (if |stack| != 1 then Err(UNCLOSED) else Ok(stack[0]))
    else
      var first :- Lex(s);
      AdvanceKeepsRoot(stack, first.0);
      var next :- Advance(stack, first.0);
      ParseFrom(next, first.1)
  }

  /** The reader's loop: lex at the position, act on the stack, move on. */
  method ParseXml(source: string) returns (result: Result<Node>)
    ensures result == ParseFrom([ROOT], source)
  {
    hide Lex, Advance;
    var stack := [ROOT];
    var position := 0;
    assert source[0..] == source;
    while position < |source|
      invariant position <= |source| && stack != []
      invariant ParseFrom([ROOT], source) == ParseFrom(stack, source[position..])
    {
      var here := source[position..];
      LexEnds(here);
      var first := Lex(here);
      if first.Err? {
        return Err(first.error);
      }
      assert first.value.1 == source[|source| - |first.value.1|..];
      AdvanceKeepsRoot(stack, first.value.0);
      var next := Advance(stack, first.value.0);
      if next.Err? {
        return Err(next.error);
      }
      stack := next.value;
      position := |source| - |first.value.1|;
    }
    if |stack| != 1 {
      return Err(UNCLOSED);
    }
    return Ok(stack[0]);
  }

  /** Reading while lexing is lexing the whole text first and running the stack on its tokens. */
  lemma {:induction false} ParseIsBuild(stack: seq<Node>, s: string)
    requires stack != []
    ensures ParseFrom(stack, s).Ok? <==> Tokenize(s).Ok? && Run(stack, Tokenize(s).value).Ok? && |Run(stack, Tokenize(s).value).value| == 1
    ensures ParseFrom(stack, s).Ok? ==> ParseFrom(stack, s).value == Run(stack, Tokenize(s).value).value[0]
    decreases |s|
  {
    hide Lex, Advance;
    if s != "" {
      if Lex(s).Ok? {
        var first := Lex(s).value;
        AdvanceKeepsRoot(stack, first.0);
        var rest := Tokenize(first.1);
        assert rest.Ok? ==> ([first.0] + rest.value)[1..] == rest.value;
        if Advance(stack, first.0).Ok? {
          ParseIsBuild(Advance(stack, first.0).value, first.1);
        }
      }
    }
  }
}
