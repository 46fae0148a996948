/** Overlay actions on a platform's document: targets, merging, and what they leave alone. */
module Overlay {
  import opened Wrappers

  datatype Value = Null | Scalar(text: string) | Array(items: seq<Value>) | Object(fields: map<string, Value>)

  // ----- Targets -----

  function SplitAt(s: string): (n: nat)
    ensures n <= |s| && (forall i :: 0 <= i < n ==> s[i] != '.' && s[i] != '[') && (n < |s| ==> s[n] == '.' || s[n] == '[')
  {
    if s == "" || s[0] == '.' || s[0] == '[' then 0 else 1 + SplitAt(s[1..])
  }

  /** Where `']` first occurs. */
  function QuoteEnd(s: string): (n: Option<nat>)
    ensures n.Some? ==> n.value + 2 <= |s| && s[n.value] == '\'' && s[n.value + 1] == ']'
    ensures n.Some? ==> forall i :: 0 <= i < n.value ==> !(s[i] == '\'' && s[i + 1] == ']')
    ensures n.None? ==> forall i :: 0 <= i < |s| - 1 ==> !(s[i] == '\'' && s[i + 1] == ']')
  {
    if |s| < 2 then None
    else if s[0] == '\'' && s[1] == ']' then Some(0)
    else match QuoteEnd(s[1..])
      case Some(n) => Some(n + 1)
      case None => None
  }

  const UNSUPPORTED := "unsupported overlay target"

  /** One key off the front of what is left of a target. */
  function NextKey(s: string): (r: Result<(string, string)>)
    ensures r.Ok? ==> |r.value.1| < |s|
  {
    if s != "" && s[0] == '.' then
      var n := SplitAt(s[1..]);
      if n == 0 then Err(UNSUPPORTED) else Ok((s[1..][..n], s[1..][n..]))
    else if |s| >= 2 && s[0] == '[' && s[1] == '\'' then
      match QuoteEnd(s[2..])
      case Some(n) => Ok((s[2..][..n], s[2..][n + 2..]))
      case None => Err(UNSUPPORTED)
    else Err(UNSUPPORTED)
  }

  function KeysOf(s: string): Result<seq<string>>
    decreases |s|
  {
    if s == "" then Ok([])
    else
      var first :- NextKey(s);
      var rest :- KeysOf(first.1);
      Ok([first.0] + rest)
  }

  function ParseTarget(target: string): Result<seq<string>> {
    if target == "" || target[0] != '$' then Err(UNSUPPORTED) else KeysOf(target[1..])
  }

  /** Takes keys off the target until nothing is left. */
  method ParsedTarget(target: string) returns (result: Result<seq<string>>)
    ensures result == ParseTarget(target)
  {
    if target == "" || target[0] != '$' {
      return Err(UNSUPPORTED);
    }
    var rest := target[1..];
    var keys: seq<string> := [];
    assert KeysOf(rest).Ok? ==> keys + KeysOf(rest).value == KeysOf(rest).value;
    while rest != ""
      invariant ParseTarget(target).Ok? <==> KeysOf(rest).Ok?
      invariant KeysOf(rest).Ok? ==> ParseTarget(target) == Ok(keys + KeysOf(rest).value)
      invariant KeysOf(rest).Err? ==> ParseTarget(target) == Err(KeysOf(rest).error)
      decreases |rest|
    {
      hide NextKey;
      var next := NextKey(rest);
      if next.Err? {
        return Err(next.error);
      }
      ghost var more := KeysOf(next.value.1);
      assert more.Ok? ==> keys + ([next.value.0] + more.value) == (keys + [next.value.0]) + more.value;
      keys := keys + [next.value.0];
      rest := next.value.1;
    }
    assert keys + [] == keys;
    return Ok(keys);
  }

  /** A key as written in a target: after a dot, or quoted in brackets. */
  datatype Segment = Dotted(key: string) | Bracketed(key: string)

  /** Dotted keys are not empty and hold no dot or bracket; quoted ones hold no `']`. */
  predicate Writable(g: Segment) {
    match g
    case Dotted(key) => key != "" && forall i :: 0 <= i < |key| ==> key[i] != '.' && key[i] != '['
    case Bracketed(key) => forall i :: 0 <= i < |key| - 1 ==> !(key[i] == '\'' && key[i + 1] == ']')
  }

  function Write(g: Segment): string {
    match g
    case Dotted(key) => "." + key
    case Bracketed(key) => "['" + key + "']"
  }

  function WriteAll(segments: seq<Segment>): string {
    if segments == [] then "" else Write(segments[0]) + WriteAll(segments[1..])
  }

  function Keys(segments: seq<Segment>): seq<string> {
    seq(|segments|, i requires 0 <= i < |segments| => segments[i].key)
  }

  lemma SplitExactly(key: string, rest: string)
    requires (forall i :: 0 <= i < |key| ==> key[i] != '.' && key[i] != '[') && (rest == "" || rest[0] == '.' || rest[0] == '[')
    ensures SplitAt(key + rest) == |key|
  {
    var s := key + rest;
    assert forall i :: 0 <= i < |key| ==> s[i] == key[i];
    assert rest != "" ==> s[|key|] == rest[0];
  }

  lemma QuoteExactly(key: string, rest: string)
    requires forall i :: 0 <= i < |key| - 1 ==> !(key[i] == '\'' && key[i + 1] == ']')
    ensures QuoteEnd(key + "']" + rest) == Some(|key|)
  {
    var s := key + "']" + rest;
    assert forall i :: 0 <= i < |key| ==> s[i] == key[i];
    assert s[|key|] == '\'' && s[|key| + 1] == ']';
  }

  lemma WrittenDotted(key: string, rest: string)
    requires Writable(Dotted(key)) && (rest == "" || rest[0] == '.' || rest[0] == '[')
    ensures "." + key + rest != "" && NextKey("." + key + rest) == Ok((key, rest))
  {
    hide SplitAt, QuoteEnd;
    var t := key + rest;
    SplitExactly(key, rest);
    assert ("." + key + rest)[1..] == t;
    assert t[..|key|] == key && t[|key|..] == rest;
  }

  lemma WrittenBracketed(key: string, rest: string)
    requires Writable(Bracketed(key))
    ensures "['" + key + "']" + rest != "" && NextKey("['" + key + "']" + rest) == Ok((key, rest))
  {
    hide SplitAt, QuoteEnd;
    var t := key + "']" + rest;
    QuoteExactly(key, rest);
    assert ("['" + key + "']" + rest)[2..] == t;
    assert t[..|key|] == key && t[|key| + 2..] == rest;
  }

  lemma WrittenKey(g: Segment, rest: string)
    requires Writable(g) && (rest == "" || rest[0] == '.' || rest[0] == '[')
    ensures Write(g) + rest != "" && NextKey(Write(g) + rest) == Ok((g.key, rest))
  {
    hide NextKey, Writable;
    match g
    case Dotted(key) => WrittenDotted(key, rest);
    case Bracketed(key) => WrittenBracketed(key, rest);
  }

  lemma WrittenStart(segments: seq<Segment>)
    ensures WriteAll(segments) == "" || WriteAll(segments)[0] == '.' || WriteAll(segments)[0] == '['
  {
  }

  lemma {:induction false} WrittenKeys(segments: seq<Segment>)
    requires forall g :: g in segments ==> Writable(g)
    ensures KeysOf(WriteAll(segments)) == Ok(Keys(segments))
    decreases |segments|
  {
    hide NextKey, Write;
    if segments == [] {
      assert Keys(segments) == [];
    } else {
      WrittenKeys(segments[1..]);
      WrittenStart(segments[1..]);
      WrittenKey(segments[0], WriteAll(segments[1..]));
      assert Keys(segments) == [segments[0].key] + Keys(segments[1..]);
    }
  }

  lemma KeyIsWritten(s: string) returns (g: Segment)
    requires s != "" && NextKey(s).Ok?
    ensures Writable(g) && g.key == NextKey(s).value.0 && s == Write(g) + NextKey(s).value.1
  {
    hide SplitAt, QuoteEnd;
    var key, rest := NextKey(s).value.0, NextKey(s).value.1;
    if s[0] == '.' {
      g := Dotted(key);
      var t := s[1..];
      assert key == t[..SplitAt(t)] && t == key + rest;
      assert s == "." + t;
    } else {
      g := Bracketed(key);
      var t := s[2..];
      assert key == t[..QuoteEnd(t).value] && t == key + "']" + rest;
      assert s == "['" + t;
    }
  }

  lemma {:induction false} KeysAreWritten(s: string) returns (segments: seq<Segment>)
    requires KeysOf(s).Ok?
    ensures (forall g :: g in segments ==> Writable(g)) && s == WriteAll(segments) && Keys(segments) == KeysOf(s).value
    decreases |s|
  {
    hide NextKey, Writable, Write;
    if s == "" {
      segments := [];
    } else {
      var g := KeyIsWritten(s);
      var more := KeysAreWritten(NextKey(s).value.1);
      segments := [g] + more;
      assert segments[1..] == more;
      assert Keys(segments) == [g.key] + Keys(more);
    }
  }

  /** Parsing undoes writing, and reads nothing but written targets. */
  lemma ParsesExactlyWritten(target: string, keys: seq<string>)
    ensures ParseTarget(target) == Ok(keys) <==>
      exists segments :: (forall g :: g in segments ==> Writable(g)) && target == "$" + WriteAll(segments) && keys == Keys(segments)
  {
    hide NextKey, Writable, Write;
    if ParseTarget(target) == Ok(keys) {
      var segments := KeysAreWritten(target[1..]);
      assert target == "$" + WriteAll(segments);
    }
    if segments :| (forall g :: g in segments ==> Writable(g)) && target == "$" + WriteAll(segments) && keys == Keys(segments) {
      WrittenKeys(segments);
      assert target[1..] == WriteAll(segments);
    }
  }

  // ----- Merging -----

  function Field(v: Value, key: string): Value {
    if v.Object? && key in v.fields then v.fields[key] else Null
  }

  /** Objects merge key by key; anything else is replaced. */
  function Merge(destination: Value, update: Value): Value
    decreases update
  {
    if destination.Object? && update.Object? then
      Object(map k | k in destination.fields.Keys + update.fields.Keys ::
        if k in update.fields then Merge(Field(destination, k), update.fields[k]) else destination.fields[k])
    else update
  }

  function MergeAt(document: Value, keys: seq<string>, update: Value): Result<Value> {
    if keys == [] then Ok(Merge(document, update))
    else if !document.Object? || keys[0] !in document.fields then Err("overlay target does not exist")
    else
      var inner :- MergeAt(document.fields[keys[0]], keys[1..], update);
      Ok(Object(document.fields[keys[0] := inner]))
  }

  function Applied(document: Value, target: string, update: Value): Result<Value> {
    var keys :- ParseTarget(target);
    MergeAt(document, keys, update)
  }

  class Document {
    var value: Value

    constructor (v: Value)
      ensures value == v
    {
      value := v;
    }

    /** Merges the update into the target, or leaves the document as it is and says why. */
    method MergeAtTarget(target: string, update: Value) returns (error: Option<string>)
      modifies this
      ensures match Applied(old(value), target, update)
        case Ok(v) => value == v && error == None
        case Err(e) => value == old(value) && error == Some(e)
    {
      var keys := ParsedTarget(target);
      if keys.Err? {
        return Some(keys.error);
      }
      var merged := MergeAt(value, keys.value, update);
      if merged.Err? {
        return Some(merged.error);
      }
      value := merged.value;
      return None;
    }
  }

  lemma {:induction false} MergeSelf(update: Value)
    ensures Merge(update, update) == update
    decreases update
  {
    if update.Object? {
      forall k | k in update.fields
        ensures Merge(Field(update, k), update.fields[k]) == update.fields[k]
      {
        MergeSelf(update.fields[k]);
      }
      assert Merge(update, update).fields.Keys == update.fields.Keys;
    }
  }

  lemma {:induction false} MergeIdempotent(destination: Value, update: Value)
    ensures Merge(Merge(destination, update), update) == Merge(destination, update)
    decreases update
  {
    if destination.Object? && update.Object? {
      var once := Merge(destination, update);
      var twice := Merge(once, update);
      forall k | k in update.fields
        ensures twice.fields[k] == once.fields[k]
      {
        MergeIdempotent(Field(destination, k), update.fields[k]);
      }
      assert twice.fields.Keys == once.fields.Keys;
    } else {
      MergeSelf(update);
    }
  }

  lemma {:induction false} MergeAtTwice(document: Value, keys: seq<string>, update: Value)
    requires MergeAt(document, keys, update).Ok?
    ensures MergeAt(MergeAt(document, keys, update).value, keys, update) == MergeAt(document, keys, update)
    decreases |keys|
  {
    if keys == [] {
      MergeIdempotent(document, update);
    } else {
      MergeAtTwice(document.fields[keys[0]], keys[1..], update);
      var once := MergeAt(document, keys, update).value;
      assert once.fields[keys[0] := once.fields[keys[0]]] == once.fields;
    }
  }

  /** Applying an action again changes nothing. */
  lemma ActionIdempotent(document: Value, target: string, update: Value)
    requires Applied(document, target, update).Ok?
    ensures Applied(Applied(document, target, update).value, target, update) == Applied(document, target, update)
  {
    MergeAtTwice(document, ParseTarget(target).value, update);
    hide MergeAt;
  }

  // ----- What an action touches -----

  function Get(v: Value, path: seq<string>): Option<Value> {
    if path == [] then Some(v) else if v.Object? && path[0] in v.fields then Get(v.fields[path[0]], path[1..]) else None
  }

  /** The update neither sets the path nor replaces anything above it. */
  ghost predicate Spares(destination: Value, update: Value, path: seq<string>)
    decreases |path|
  {
    && path != [] && destination.Object? && update.Object?
    && (path[0] in update.fields ==> path[0] in destination.fields && Spares(destination.fields[path[0]], update.fields[path[0]], path[1..]))
  }

  lemma {:induction false} MergeSpares(destination: Value, update: Value, path: seq<string>)
    requires Spares(destination, update, path)
    ensures Get(Merge(destination, update), path) == Get(destination, path)
    decreases |path|
  {
    var k := path[0];
    if k in update.fields {
      MergeSpares(destination.fields[k], update.fields[k], path[1..]);
    }
  }

  /** Every value the update holds, other than an object, is there after merging. */
  lemma {:induction false} MergeSets(destination: Value, update: Value, path: seq<string>)
    requires Get(update, path).Some? && !Get(update, path).value.Object?
    ensures Get(Merge(destination, update), path) == Get(update, path)
    decreases |path|
  {
    if path != [] && destination.Object? {
      MergeSets(Field(destination, path[0]), update.fields[path[0]], path[1..]);
    }
  }

  /** An action keeps the value at every path that leaves the target's path, or that
      its update spares below the target. */
  ghost predicate Kept(document: Value, keys: seq<string>, update: Value, path: seq<string>)
    decreases |keys|
  {
    if keys == [] then Spares(document, update, path)
    else
      && path != []
      && (path[0] == keys[0] ==> document.Object? && keys[0] in document.fields && Kept(document.fields[keys[0]], keys[1..], update, path[1..]))
  }

  lemma {:induction false} MergeAtKeeps(document: Value, keys: seq<string>, update: Value, path: seq<string>)
    requires MergeAt(document, keys, update).Ok? && Kept(document, keys, update, path)
    ensures Get(MergeAt(document, keys, update).value, path) == Get(document, path)
    decreases |keys|
  {
    if keys == [] {
      MergeSpares(document, update, path);
    } else if path[0] == keys[0] {
      MergeAtKeeps(document.fields[keys[0]], keys[1..], update, path[1..]);
    }
  }

  /** What the update holds ends up below the target. */
  lemma {:induction false} MergeAtSets(document: Value, keys: seq<string>, update: Value, path: seq<string>)
    requires MergeAt(document, keys, update).Ok? && Get(update, path).Some? && !Get(update, path).value.Object?
    ensures Get(MergeAt(document, keys, update).value, keys + path) == Get(update, path)
    decreases |keys|
  {
    if keys == [] {
      assert keys + path == path;
      MergeSets(document, update, path);
    } else {
      MergeAtSets(document.fields[keys[0]], keys[1..], update, path);
      assert (keys + path)[1..] == keys[1..] + path;
    }
  }

  /** The update holds something other than an object above the path. */
  ghost predicate Cuts(update: Value, path: seq<string>)
    decreases |path|
  {
    path != [] && (update.Object? ==> path[0] in update.fields && Cuts(update.fields[path[0]], path[1..]))
  }

  /** What is found at a path after merging: what the update has there, objects joined,
      and what was there before where the update has nothing and cuts nothing off. */
  ghost predicate ReadsMerged(before: Option<Value>, update: Value, path: seq<string>, after: Option<Value>) {
    match Get(update, path)
    case Some(v) => after.Some? && if v.Object? then after.value.Object? else after.value == v
    case None => after == if Cuts(update, path) then None else before
  }

  lemma {:induction false} MergeIntoNothing(update: Value, path: seq<string>)
    ensures ReadsMerged(None, update, path, Get(update, path))
    decreases |path|
  {
    if path != [] && update.Object? && path[0] in update.fields {
      MergeIntoNothing(update.fields[path[0]], path[1..]);
    }
  }

  lemma {:induction false} MergeReads(destination: Value, update: Value, path: seq<string>)
    ensures ReadsMerged(Get(destination, path), update, path, Get(Merge(destination, update), path))
    decreases |path|
  {
    if !destination.Object? || !update.Object? {
      MergeIntoNothing(update, path);
      assert update.Object? && path != [] ==> Get(destination, path) == None;
    } else if path != [] && path[0] in update.fields {
      MergeReads(Field(destination, path[0]), update.fields[path[0]], path[1..]);
    }
  }

  /** The whole document after an action: at and below the target the merged value, path by
      path; at every path that leaves the target's path what was there; above it objects. */
  lemma {:induction false} ActionReads(document: Value, keys: seq<string>, update: Value, path: seq<string>)
    requires MergeAt(document, keys, update).Ok?
    ensures var after := MergeAt(document, keys, update).value;
      if keys <= path then ReadsMerged(Get(document, path), update, path[|keys|..], Get(after, path))
      else if path <= keys then Get(after, path).Some? && Get(after, path).value.Object?
      else Get(after, path) == Get(document, path)
    decreases |keys|
  {
    if keys == [] {
      assert path[0..] == path;
      MergeReads(document, update, path);
    } else if path != [] && path[0] == keys[0] {
      ActionReads(document.fields[keys[0]], keys[1..], update, path[1..]);
      assert keys[1..] <= path[1..] <==> keys <= path;
      if keys <= path {
        assert path[1..][|keys| - 1..] == path[|keys|..];
      }
    }
  }

  /** An action applies exactly when its target names an existing place. */
  lemma {:induction false} AppliesIffPresent(document: Value, keys: seq<string>, update: Value)
    ensures MergeAt(document, keys, update).Ok? <==> Get(document, keys).Some?
    decreases |keys|
  {
    if keys != [] && document.Object? && keys[0] in document.fields {
      AppliesIffPresent(document.fields[keys[0]], keys[1..], update);
    }
  }
}
