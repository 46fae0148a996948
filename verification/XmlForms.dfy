/** The other forms the XML reader takes: comments, CDATA, instructions, document
    types, empty elements, and white space and either quote inside tags. */
module XmlForms {
  import opened Wrappers
  import opened Characters
  import opened Xml
  import opened XmlPrinting

  /** `end` does not begin inside `body` when `body`, `end` and `rest` are put together. */
  ghost predicate EndsFirst(body: string, end: string, rest: string) {
    forall i :: 0 <= i < |body| ==> !(end <= (body + end + rest)[i..])
  }

  lemma {:induction false} FoundFirst(body: string, end: string, rest: string)
    requires EndsFirst(body, end, rest) && end != ""
    ensures Find(body + end + rest, end) == Some(|body|)
    decreases |body|
  {
    var s := body + end + rest;
    if body == "" {
      assert s == end + rest;
      assert end <= s;
    } else {
      assert s[0..] == s && !(end <= s[0..]);
      assert s[1..] == body[1..] + end + rest;
      assert EndsFirst(body[1..], end, rest) by {
        forall i | 0 <= i < |body[1..]| ensures !(end <= (body[1..] + end + rest)[i..]) {
          assert s[i + 1..] == (body[1..] + end + rest)[i..];
        }
      }
      FoundFirst(body[1..], end, rest);
    }
  }

  lemma BetweenIs(open: string, body: string, end: string, rest: string)
    requires EndsFirst(body, end, rest) && end != ""
    ensures Between(open + body + end + rest, open, end) == Some((body, rest))
  {
    var s := open + body + end + rest;
    FoundFirst(body, end, rest);
    assert s == open + (body + end + rest);
    assert s[|open|..] == body + end + rest;
    assert (body + end + rest)[..|body|] == body;
    assert (body + end + rest)[|body| + |end|..] == rest;
    hide Find, EndsFirst;
  }

  /** A comment is skipped up to its first end. */
  lemma CommentLexes(body: string, rest: string)
    requires EndsFirst(body, "-->", rest)
    ensures Lex("<!--" + body + "-->" + rest) == Ok((Skipped, rest))
  {
    BetweenIs("<!--", body, "-->", rest);
    hide Between, LexDoctype, LexClose, LexOpen, Decode, Head, Tail, EndsFirst;
  }

  /** A CDATA section is text as it stands, nothing in it decoded. */
  lemma CDataLexes(body: string, rest: string)
    requires EndsFirst(body, "]]>", rest)
    ensures Lex("<![CDATA[" + body + "]]>" + rest) == Ok((Text(body), rest))
  {
    var s := "<![CDATA[" + body + "]]>" + rest;
    BetweenIs("<![CDATA[", body, "]]>", rest);
    assert s[2] == '[' && "<!--"[2] == '-';
    assert Between(s, "<!--", "-->").None?;
    hide Between, LexDoctype, LexClose, LexOpen, Decode, Head, Tail, EndsFirst;
  }

  /** A processing instruction is skipped up to its first end. */
  lemma InstructionLexes(body: string, rest: string)
    requires EndsFirst(body, "?>", rest)
    ensures Lex("<?" + body + "?>" + rest) == Ok((Skipped, rest))
  {
    var s := "<?" + body + "?>" + rest;
    BetweenIs("<?", body, "?>", rest);
    assert s[1] == '?' && "<!--"[1] == '!' && "<![CDATA["[1] == '!';
    assert Between(s, "<!--", "-->").None? && Between(s, "<![CDATA[", "]]>").None?;
    hide Between, LexDoctype, LexClose, LexOpen, Decode, Head, Tail, EndsFirst;
  }

  /** A document type without an internal subset is skipped. */
  lemma DoctypeLexes(body: string, rest: string)
    requires '>' !in body
    ensures Lex("<!DOCTYPE" + body + ">" + rest) == Ok((Skipped, rest))
  {
    var s := "<!DOCTYPE" + body + ">" + rest;
    assert s == "<!DOCTYPE" + (body + (">" + rest));
    assert s[9..] == body + (">" + rest);
    SplitExactly(body, ">" + rest, NotAngle);
    assert (">" + rest)[1..] == rest;
    assert s[1] == '!' && s[2] == 'D' && "<!--"[2] == '-' && "<![CDATA["[2] == '[' && "<?"[1] == '?';
    assert Between(s, "<!--", "-->").None? && Between(s, "<![CDATA[", "]]>").None? && Between(s, "<?", "?>").None?;
    hide Between, LexClose, LexOpen, Decode, Head, Tail;
  }

  // ----- Tags -----

  lemma SpaceTails(space: string, rest: string)
    requires AllSpace(space) && rest != "" && !IsSpace(rest[0])
    ensures Tail(space + rest, IsSpace) == rest && Head(space + rest, IsSpace) == space
  {
    SplitExactly(space, rest, IsSpace);
    hide Head, Tail;
  }

  /** An end tag may have white space before it closes. */
  lemma CloseTagLexes(tag: string, space: string, rest: string)
    requires tag != "" && (forall i :: 0 <= i < |tag| ==> !IsSpace(tag[i]) && tag[i] != '>') && AllSpace(space)
    ensures LexClose("</" + tag + space + ">" + rest) == Some((CloseTag(tag), rest))
  {
    var tail := space + (">" + rest);
    var s := "</" + tag + space + ">" + rest;
    assert s == "</" + (tag + tail);
    assert s[2..] == tag + tail;
    assert !InCloseName(tail[0]);
    SplitExactly(tag, tail, InCloseName);
    assert !IsSpace('>');
    SpaceTails(space, ">" + rest);
    assert (">" + rest)[1..] == rest;
    hide Head, Tail, InCloseName, IsSpace;
  }

  /** The value of an attribute in either quote. */
  lemma QuoteLexes(quote: char, value: string, rest: string)
    requires (quote == '"' || quote == '\'') && quote !in value
    ensures Quoted([quote] + value + [quote] + rest) == Some((value, rest))
  {
    var tail := [quote] + rest;
    var s := [quote] + value + [quote] + rest;
    assert s == [quote] + (value + tail);
    assert s[1..] == value + tail;
    assert tail[1..] == rest;
    if quote == '"' {
      SplitExactly(value, tail, NotDouble);
    } else {
      SplitExactly(value, tail, NotSingle);
    }
    hide Head, Tail;
  }

  /** White space may stand before an attribute and on both sides of its equals sign. */
  lemma SpacedAttributeLexes(before: string, name: string, left: string, right: string, quote: char, value: string, rest: string)
    requires before != "" && AllSpace(before) && AllSpace(left) && AllSpace(right) && IsAttributeName(name)
    requires (quote == '"' || quote == '\'') && quote !in value
    ensures Attribute(before + (name + (left + ("=" + (right + ([quote] + value + [quote] + rest)))))) == Some((name, value, rest))
  {
    var quoted := [quote] + value + [quote] + rest;
    var equals := left + ("=" + (right + quoted));
    var named := name + equals;
    assert quoted[0] == quote && !IsSpace(quote) && !IsSpace('=');
    SpaceTails(right, quoted);
    SpaceTails(left, "=" + (right + quoted));
    assert ("=" + (right + quoted))[1..] == right + quoted;
    assert AfterEquals(equals) == Some(quoted) by {
      hide Head, Tail;
    }
    assert !InAttributeName(equals[0]);
    SplitExactly(name, equals, InAttributeName);
    assert named[0] == name[0] && InAttributeName(name[0]);
    SpaceTails(before, named);
    QuoteLexes(quote, value, rest);
    hide Head, Tail, Quoted, AfterEquals, IsSpace;
    AttributeOf(before + named, named, name, equals, quoted, (value, rest));
  }

  lemma EmptyPart(tag: string, attrs: seq<(string, string)>, rest: string, last: string)
    requires IsTag(tag) && forall i :: 0 <= i < |attrs| ==> IsAttributeName(attrs[i].0)
    requires last == "/>" + rest
    ensures LexOpen("<" + (tag + PrintAttributes(attrs, last))) == Ok((OpenTag(tag, AttributeMap(attrs, map[]), true), rest))
  {
    hide Head, Tail, PrintAttributes, Attributes, AttributeMap;
    var printed := PrintAttributes(attrs, last);
    AttributesStart(attrs, last);
    AttributesLex(attrs, map[], last);
    assert !InTagName('/') && !InTagName(' ');
    SplitExactly(tag, printed, InTagName);
    assert ("<" + (tag + printed))[1..] == tag + printed;
    assert "" + last == last;
    SplitExactly("", last, IsSpace);
    assert last[2..] == rest;
  }

  /** An element that ends where it starts. */
  lemma EmptyElementLexes(tag: string, attrs: seq<(string, string)>, rest: string)
    requires IsTag(tag) && forall i :: 0 <= i < |attrs| ==> IsAttributeName(attrs[i].0)
    ensures Lex("<" + (tag + PrintAttributes(attrs, "/>" + rest))) == Ok((OpenTag(tag, AttributeMap(attrs, map[]), true), rest))
  {
    hide LexOpen, PrintAttributes, AttributeMap;
    var s := "<" + (tag + PrintAttributes(attrs, "/>" + rest));
    EmptyPart(tag, attrs, rest, "/>" + rest);
    assert s[0] == '<' && s[1] == tag[0];
    NotMarkup(s);
    assert !("</" <= s) by { assert "</"[1] == '/' && InTagName(tag[0]); }
  }
}
