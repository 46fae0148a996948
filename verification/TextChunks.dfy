/** Cutting a text into Notion text objects of at most 2000 UTF-16 code units. */
module TextChunks {

  type CodeUnit = n: nat | n < 0x1_0000

  type Text = seq<CodeUnit>

  const MAX_CHUNK := 2000
  const MAX_PARTS := 100

  /** Surrogates as in section 2.1 of RFC 2781. */
  predicate IsHigh(u: CodeUnit) {
    0xD800 <= u <= 0xDBFF
  }

  predicate IsLow(u: CodeUnit) {
    0xDC00 <= u <= 0xDFFF
  }

  /** Where the chunk starting at `i` ends. */
  function CutAfter(text: Text, i: nat): (end: nat)
    requires i < |text|
    ensures i < end <= |text|
    ensures end - i <= MAX_CHUNK
    ensures end < |text| ==> end - i >= MAX_CHUNK - 1
  {
    var end := if i + MAX_CHUNK < |text| then i + MAX_CHUNK else |text|;
    if end < |text| && IsHigh(text[end - 1]) then end - 1 else end
  }

  function ChunksFrom(text: Text, i: nat): (parts: seq<Text>)
    requires i <= |text|
    decreases |text| - i
  {
    if i == |text| then []
    else
      var end := CutAfter(text, i);
      [text[i..end]] + ChunksFrom(text, end)
  }

  function Chunks(text: Text): (parts: seq<Text>) {
    ChunksFrom(text, 0)
  }

  function Join(parts: seq<Text>): Text {
    if parts == [] then [] else Join(parts[..|parts| - 1]) + parts[|parts| - 1]
  }

  lemma {:induction false} JoinCons(first: Text, rest: seq<Text>)
    ensures Join([first] + rest) == first + Join(rest)
  {
    var all := [first] + rest;
    if rest == [] {
      assert all[..0] == [];
    } else {
      assert all[..|all| - 1] == [first] + rest[..|rest| - 1];
      JoinCons(first, rest[..|rest| - 1]);
    }
  }

  method Chunk(text: Text) returns (parts: seq<Text>)
    ensures parts == Chunks(text)
  {
    parts := [];
    var i := 0;
    while i < |text|
      invariant i <= |text|
      invariant parts + ChunksFrom(text, i) == Chunks(text)
    {
      var end := if i + MAX_CHUNK < |text| then i + MAX_CHUNK else |text|;
      if end < |text| && IsHigh(text[end - 1]) {
        end := end - 1;
      }
      assert ChunksFrom(text, i) == [text[i..end]] + ChunksFrom(text, end);
      parts := parts + [text[i..end]];
      i := end;
    }
  }

  /** No part is empty or too long, and the parts put together are the text. */
  lemma {:induction false} ChunksCover(text: Text, i: nat)
    requires i <= |text|
    ensures Join(ChunksFrom(text, i)) == text[i..]
    ensures forall k :: 0 <= k < |ChunksFrom(text, i)| ==> 0 < |ChunksFrom(text, i)[k]| <= MAX_CHUNK
    decreases |text| - i
  {
    if i < |text| {
      var end := CutAfter(text, i);
      ChunksCover(text, end);
      JoinCons(text[i..end], ChunksFrom(text, end));
      assert text[i..] == text[i..end] + text[end..];
    }
  }

  /** A cut never falls between the two halves of a surrogate pair: the unit
      before it is not a high surrogate paired with a low one after it. */
  lemma {:induction false} ChunksKeepPairs(text: Text, i: nat, k: nat)
    requires i <= |text|
    requires k + 1 < |ChunksFrom(text, i)|
    ensures var parts := ChunksFrom(text, i);
      && 0 < |parts[k]| && 0 < |parts[k + 1]|
      && !(IsHigh(parts[k][|parts[k]| - 1]) && IsLow(parts[k + 1][0]))
    decreases |text| - i
  {
    var end := CutAfter(text, i);
    ChunksCover(text, i);
    if k > 0 {
      ChunksKeepPairs(text, end, k - 1);
    } else {
      assert end < |text|;
      assert ChunksFrom(text, i)[1] == ChunksFrom(text, end)[0] == text[end..CutAfter(text, end)];
    }
  }

  /** Every part but the last holds at least 1999 units, so the part count is pinned between two quotients. */
  lemma {:induction false} ChunkCount(text: Text, i: nat)
    requires i <= |text|
    ensures var n := |ChunksFrom(text, i)|;
      && |text| - i <= n * MAX_CHUNK
      && (n > 0 ==> (n - 1) * (MAX_CHUNK - 1) < |text| - i)
    decreases |text| - i
  {
    if i < |text| {
      ChunkCount(text, CutAfter(text, i));
    }
  }

  /** Up to 199,900 units a text always fits Notion's 100 parts; above 200,000 it never does. */
  lemma ChunkLimit(text: Text)
    ensures |text| <= 199_900 ==> |Chunks(text)| <= MAX_PARTS
    ensures |text| > 200_000 ==> |Chunks(text)| > MAX_PARTS
  {
    ChunkCount(text, 0);
  }

  /** A text without surrogates is cut every 2000 units, so it fits exactly up to 200,000. */
  lemma {:induction false} ChunkCountPlain(text: Text, i: nat)
    requires i <= |text|
    requires forall k :: 0 <= k < |text| ==> !IsHigh(text[k])
    ensures |ChunksFrom(text, i)| == (|text| - i + MAX_CHUNK - 1) / MAX_CHUNK
    decreases |text| - i
  {
    if i < |text| {
      ChunkCountPlain(text, CutAfter(text, i));
    }
  }

  lemma JoinChunks(text: Text)
    ensures Join(Chunks(text)) == text
  {
    ChunksCover(text, 0);
  }
}
