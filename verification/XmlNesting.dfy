/** The stack machine accepts exactly the well-nested token sequences. */
module XmlNesting {
  import opened Wrappers
  import opened Xml

  /** Content as a grammar describes it: skipped markup, text, and elements with the
      names of both their tags (`None` for an empty-element tag). */
  datatype Item = Skip | Chars(text: string) | Element(open: string, attrs: map<string, string>, close: Option<string>, content: seq<Item>)

  function TokensOfItem(item: Item): seq<Token>
    decreases item, 0
  {
    match item
    case Skip => [Skipped]
    case Chars(text) => [Text(text)]
    case Element(open, attrs, close, content) =>
      if close.None? then [OpenTag(open, attrs, true)] else [OpenTag(open, attrs, false)] + TokensOf(content) + [CloseTag(close.value)]
  }

  function TokensOf(items: seq<Item>): seq<Token>
    decreases items, 1
  {
    if items == [] then [] else TokensOfItem(items[0]) + TokensOf(items[1..])
  }

  /** Every element closes with its own name, whatever the prefixes. */
  predicate NestedItem(item: Item)
    decreases item, 0
  {
    item.Element? ==> if item.close.None? then item.content == [] else Local(item.close.value) == Local(item.open) && Nested(item.content)
  }

  predicate Nested(items: seq<Item>)
    decreases items, 1
  {
    items == [] || (NestedItem(items[0]) && Nested(items[1..]))
  }

  ghost predicate WellNested(tokens: seq<Token>) {
    exists items :: Nested(items) && TokensOf(items) == tokens
  }

  /** The tree that content stands for: text joined, elements in order, prefixes dropped. */
  function AddItem(n: Node, item: Item): Node
    decreases item, 0
  {
    match item
    case Skip => n
    case Chars(text) => n.(text := n.text + text)
    case Element(open, attrs, _, content) => Add(n, Content(Node(Local(open), attrs, [], ""), content))
  }

  function Content(n: Node, items: seq<Item>): Node
    decreases items, 1
  {
    if items == [] then n else Content(AddItem(n, items[0]), items[1..])
  }

  lemma {:induction false} ContentKeepsName(n: Node, items: seq<Item>)
    ensures Content(n, items).name == n.name
    decreases items
  {
    if items != [] {
      ContentKeepsName(AddItem(n, items[0]), items[1..]);
    }
  }

  function WithTop(stack: seq<Node>, top: Node): seq<Node>
    requires stack != []
  {
    stack[|stack| - 1 := top]
  }

  function Top(stack: seq<Node>): Node
    requires stack != []
  {
    stack[|stack| - 1]
  }

  lemma RunOne(stack: seq<Node>, token: Token, rest: seq<Token>)
    requires stack != [] && Advance(stack, token).Ok?
    ensures Advance(stack, token).value != [] && Run(stack, [token] + rest) == Run(Advance(stack, token).value, rest)
  {
    AdvanceKeepsRoot(stack, token);
    assert ([token] + rest)[1..] == rest;
  }

  /** Running over nested content adds that content to the element on top. */
  lemma {:induction false} RunContent(stack: seq<Node>, items: seq<Item>, rest: seq<Token>)
    requires stack != [] && Nested(items)
    ensures Run(stack, TokensOf(items) + rest) == Run(WithTop(stack, Content(Top(stack), items)), rest)
    decreases items, 1
  {
    if items == [] {
      assert TokensOf(items) + rest == rest;
      assert WithTop(stack, Top(stack)) == stack;
    } else {
      var more := TokensOf(items[1..]) + rest;
      assert TokensOf(items) + rest == TokensOfItem(items[0]) + more;
      RunItem(stack, items[0], more);
      var next := WithTop(stack, AddItem(Top(stack), items[0]));
      RunContent(next, items[1..], rest);
      assert WithTop(next, Content(Top(next), items[1..])) == WithTop(stack, Content(Top(stack), items));
    }
  }

  lemma {:induction false} RunItem(stack: seq<Node>, item: Item, rest: seq<Token>)
    requires stack != [] && NestedItem(item)
    ensures Run(stack, TokensOfItem(item) + rest) == Run(WithTop(stack, AddItem(Top(stack), item)), rest)
    decreases item, 1
  {
    match item
    case Skip =>
      RunOne(stack, Skipped, rest);
      assert WithTop(stack, Top(stack)) == stack;
    case Chars(text) => RunOne(stack, Text(text), rest);
    case Element(open, attrs, close, content) =>
      if close.None? {
        RunOne(stack, OpenTag(open, attrs, true), rest);
      } else {
        RunElement(stack, item, rest);
      }
  }

  lemma {:induction false} RunElement(stack: seq<Node>, item: Item, rest: seq<Token>)
    requires stack != [] && NestedItem(item) && item.Element? && item.close.Some?
    ensures Run(stack, TokensOfItem(item) + rest) == Run(WithTop(stack, AddItem(Top(stack), item)), rest)
    decreases item, 0
  {
    var open, close := OpenTag(item.open, item.attrs, false), CloseTag(item.close.value);
    var node := Node(Local(item.open), item.attrs, [], "");
    assert TokensOfItem(item) + rest == [open] + (TokensOf(item.content) + ([close] + rest));
    RunOne(stack, open, TokensOf(item.content) + ([close] + rest));
    RunContent(stack + [node], item.content, [close] + rest);
    var done := Content(node, item.content);
    assert WithTop(stack + [node], done) == stack + [done];
    ContentKeepsName(node, item.content);
    hide Run, TokensOf, TokensOfItem, Content;
    assert (stack + [done])[..|stack| - 1] == stack[..|stack| - 1];
    assert Advance(stack + [done], close).Ok?;
    RunOne(stack + [done], close, rest);
    assert stack[..|stack| - 1] + [Add(Top(stack), done)] == WithTop(stack, Add(Top(stack), done));
  }

  /** What is open at one depth: its start tag, and the content read since. */
  datatype Level = Level(open: string, attrs: map<string, string>, items: seq<Item>)

  /** The tokens read to get to these open levels; the first is the document. */
  function Flat(levels: seq<Level>): seq<Token> {
    if levels == [] then []
    else if |levels| == 1 then TokensOf(levels[0].items)
    else Flat(levels[..|levels| - 1]) + [OpenTag(levels[|levels| - 1].open, levels[|levels| - 1].attrs, false)] + TokensOf(levels[|levels| - 1].items)
  }

  ghost predicate Explains(levels: seq<Level>, stack: seq<Node>) {
    && |levels| == |stack| > 0
    && (forall k :: 0 <= k < |levels| ==> Nested(levels[k].items))
    && forall k :: 0 < k < |levels| ==> stack[k].name == Local(levels[k].open)
  }

  lemma {:induction false} TokensAppend(a: seq<Item>, item: Item)
    ensures TokensOf(a + [item]) == TokensOf(a) + TokensOfItem(item)
    ensures Nested(a) && NestedItem(item) ==> Nested(a + [item])
    decreases |a|
  {
    if a == [] {
      assert a + [item] == [item];
      assert TokensOf([item]) == TokensOfItem(item) + TokensOf([]);
    } else {
      assert (a + [item])[1..] == a[1..] + [item];
      TokensAppend(a[1..], item);
    }
  }

  function AddTo(levels: seq<Level>, item: Item): seq<Level>
    requires levels != []
  {
    levels[|levels| - 1 := levels[|levels| - 1].(items := levels[|levels| - 1].items + [item])]
  }

  lemma FlatAdd(levels: seq<Level>, item: Item)
    requires levels != []
    ensures Flat(AddTo(levels, item)) == Flat(levels) + TokensOfItem(item)
  {
    var last := levels[|levels| - 1];
    TokensAppend(last.items, item);
    assert AddTo(levels, item)[..|levels| - 1] == levels[..|levels| - 1];
    hide TokensOf, TokensOfItem;
  }

  lemma FlatOpen(levels: seq<Level>, level: Level)
    requires levels != []
    ensures Flat(levels + [level]) == Flat(levels) + [OpenTag(level.open, level.attrs, false)] + TokensOf(level.items)
  {
    assert (levels + [level])[..|levels|] == levels;
  }

  /** The element that closing the last level makes. */
  function Closed(level: Level, name: string): Item {
    Element(level.open, level.attrs, Some(name), level.items)
  }

  lemma FlatClose(levels: seq<Level>, name: string)
    requires |levels| >= 2
    ensures Flat(AddTo(levels[..|levels| - 1], Closed(levels[|levels| - 1], name))) == Flat(levels) + [CloseTag(name)]
  {
    var outer, inner := levels[..|levels| - 1], levels[|levels| - 1];
    FlatAdd(outer, Closed(inner, name));
    hide TokensOf;
    assert TokensOfItem(Closed(inner, name)) == [OpenTag(inner.open, inner.attrs, false)] + TokensOf(inner.items) + [CloseTag(name)];
  }

  lemma ExplainOpen(levels: seq<Level>, stack: seq<Node>, name: string, attrs: map<string, string>) returns (next: seq<Level>)
    requires Explains(levels, stack)
    ensures Explains(next, stack + [Node(Local(name), attrs, [], "")]) && Flat(next) == Flat(levels) + [OpenTag(name, attrs, false)]
  {
    next := levels + [Level(name, attrs, [])];
    FlatOpen(levels, Level(name, attrs, []));
    assert TokensOf([]) == [];
    hide Flat, TokensOf, Local;
    assert forall k :: 0 <= k < |levels| ==> next[k] == levels[k];
    assert Nested(next[|levels|].items);
    hide Nested;
  }

  lemma ExplainClose(levels: seq<Level>, stack: seq<Node>, name: string) returns (next: seq<Level>)
    requires Explains(levels, stack) && Advance(stack, CloseTag(name)).Ok?
    ensures Explains(next, Advance(stack, CloseTag(name)).value) && Flat(next) == Flat(levels) + [CloseTag(name)]
  {
    FlatClose(levels, name);
    var outer, inner := levels[..|levels| - 1], levels[|levels| - 1];
    next := AddTo(outer, Closed(inner, name));
    TokensAppend(outer[|outer| - 1].items, Closed(inner, name));
    assert NestedItem(Closed(inner, name));
    hide Flat, TokensOf, Nested, NestedItem, Local;
    assert forall k :: 0 <= k < |outer| - 1 ==> next[k] == levels[k];
  }

  /** One token read: the levels that explain the next stack. */
  lemma ExplainNext(levels: seq<Level>, stack: seq<Node>, token: Token) returns (next: seq<Level>)
    requires Explains(levels, stack) && Advance(stack, token).Ok?
    ensures Explains(next, Advance(stack, token).value) && Flat(next) == Flat(levels) + [token]
  {
    match token
    case CloseTag(name) => next := ExplainClose(levels, stack, name);
    case Skipped => next := ExplainItem(levels, stack, Skip);
    case Text(text) => next := ExplainItem(levels, stack, Chars(text));
    case OpenTag(name, attrs, empty) =>
      hide Explains, Flat;
      if empty {
        next := ExplainItem(levels, stack, Element(name, attrs, None, []));
      } else {
        next := ExplainOpen(levels, stack, name, attrs);
      }
  }

  lemma ExplainItem(levels: seq<Level>, stack: seq<Node>, item: Item) returns (next: seq<Level>)
    requires Explains(levels, stack) && NestedItem(item)
    ensures next == AddTo(levels, item) && Flat(next) == Flat(levels) + TokensOfItem(item)
    ensures forall same: seq<Node> :: |same| == |stack| && (forall k :: 0 < k < |stack| ==> same[k].name == stack[k].name) ==> Explains(next, same)
  {
    hide Flat, TokensOf, TokensOfItem, Nested, NestedItem, Local;
    next := AddTo(levels, item);
    FlatAdd(levels, item);
    TokensAppend(levels[|levels| - 1].items, item);
    assert forall k :: 0 <= k < |levels| - 1 ==> next[k] == levels[k];
  }

  lemma {:induction false} AcceptedIsNested(levels: seq<Level>, stack: seq<Node>, tokens: seq<Token>) returns (items: seq<Item>)
    requires Explains(levels, stack) && Run(stack, tokens).Ok? && |Run(stack, tokens).value| == 1
    ensures Nested(items) && TokensOf(items) == Flat(levels) + tokens
    decreases |tokens|
  {
    if tokens == [] {
      items := levels[0].items;
      assert Flat(levels) + tokens == Flat(levels);
    } else {
      hide Advance;
      var next := ExplainNext(levels, stack, tokens[0]);
      hide Explains, Flat, TokensOf;
      items := AcceptedIsNested(next, Advance(stack, tokens[0]).value, tokens[1..]);
      assert Flat(levels) + [tokens[0]] + tokens[1..] == Flat(levels) + tokens;
    }
  }

  /** A token sequence is accepted exactly when its tags are well nested up to prefix. */
  lemma AcceptsIffNested(tokens: seq<Token>)
    ensures Build(tokens).Ok? <==> WellNested(tokens)
  {
    if Build(tokens).Ok? {
      var levels := [Level("", map[], [])];
      assert Flat(levels) == [];
      var items := AcceptedIsNested(levels, [ROOT], tokens);
      assert [] + tokens == tokens;
    }
    if WellNested(tokens) {
      var items :| Nested(items) && TokensOf(items) == tokens;
      BuildsContent(items);
    }
  }

  /** Nested content is read as the tree it stands for. */
  lemma BuildsContent(items: seq<Item>)
    requires Nested(items)
    ensures Build(TokensOf(items)) == Ok(Content(ROOT, items))
  {
    RunContent([ROOT], items, []);
    assert TokensOf(items) + [] == TokensOf(items);
    assert WithTop([ROOT], Content(ROOT, items)) == [Content(ROOT, items)];
  }
}
