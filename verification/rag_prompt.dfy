/** The prompt the answering pipeline sends to the language model
    (apps/server/internal/rag/biz/prompt.go): which retrieved chunks become
    context blocks, how each block is written, and the prompt around them. */
module Prompt {
  import opened Text
  import opened Scoring

  /** A retrieved chunk with its text (ChunkMeta in rag.go). */
  datatype ChunkMeta = ChunkMeta(chunkId: string, documentId: string, documentVersionId: string, kbId: string,
                                 content: string, section: string, pageNo: int, sourceUri: string)

  const MaxSnippetChars := 1200
  const MaxContextBlocks := 12
  const MaxBlocksPerDoc := 3

  // ---------------------------------------------------------------------
  // normalizeForPrompt

  /** What one rune adds to the builder, and whether a space was just
      written. */
  function SqueezeStep(c: char, space: bool): (string, bool) {
    if IsSpace(c) then (if space then [] else [' '], true) else ([c], false)
  }

  /** The builder's output for the rest of the text. */
  function Squeeze(s: string, space: bool): string
    decreases |s|
  {
    if s == [] then []
    else
      var (w, next) := SqueezeStep(s[0], space);
      w + Squeeze(s[1..], next)
  }

  /** normalizeForPrompt: trimmed, with every run of white space written
      as one space. */
  function NormalizeForPrompt(text: string): string {
    var t := TrimSpace(text);
    if t == "" then "" else Squeeze(t, false)
  }

  /** The builder loop of normalizeForPrompt. */
  method BuildNormalizedForPrompt(text: string) returns (r: string)
    ensures r == NormalizeForPrompt(text)
  {
    var t := TrimSpace(text);
    if t == "" {
      return "";
    }
    var b := "";
    var space := false;
    var i := 0;
    while i < |t|
      invariant 0 <= i <= |t|
      invariant b + Squeeze(t[i..], space) == Squeeze(t, false)
    {
      assert t[i..][1..] == t[i + 1..];
      var (w, next) := SqueezeStep(t[i], space);
      assert b + Squeeze(t[i..], space) == (b + w) + Squeeze(t[i + 1..], next);
      b := b + w;
      space := next;
      i := i + 1;
    }
    assert t[i..] == [];
    assert b + [] == b;
    r := b;
  }

  /** The only white space is single plain spaces. */
  predicate Squeezed(s: string) {
    && (forall i :: 0 <= i < |s| && IsSpace(s[i]) ==> s[i] == ' ')
    && (forall i :: 0 <= i < |s| - 1 ==> !(IsSpace(s[i]) && IsSpace(s[i + 1])))
  }

  /** The characters that are not white space, in order. */
  function NonSpace(s: string): string {
    if s == [] then [] else (if IsSpace(s[0]) then [] else [s[0]]) + NonSpace(s[1..])
  }

  lemma {:induction false} NonSpaceAppend(a: string, b: string)
    ensures NonSpace(a + b) == NonSpace(a) + NonSpace(b)
    decreases |a|
  {
    if a == [] {
      assert a + b == b;
    } else {
      assert (a + b)[0] == a[0];
      assert (a + b)[1..] == a[1..] + b;
      NonSpaceAppend(a[1..], b);
    }
  }

  /** Squeeze writes single plain spaces, none at the front when a space
      was just written. */
  lemma {:induction false} SqueezeShape(s: string, space: bool)
    ensures Squeezed(Squeeze(s, space))
    ensures space ==> Squeeze(s, space) == [] || !IsSpace(Squeeze(s, space)[0])
    decreases |s|
  {
    if s != [] {
      var (w, next) := SqueezeStep(s[0], space);
      SqueezeShape(s[1..], next);
      var rest := Squeeze(s[1..], next);
      var r := w + rest;
      assert Squeeze(s, space) == r;
      assert w == [' '] ==> next;
      forall i | 0 <= i < |r| && IsSpace(r[i]) ensures r[i] == ' ' {
        if i >= |w| {
          assert r[i] == rest[i - |w|];
        }
      }
      forall i | 0 <= i < |r| - 1 ensures !(IsSpace(r[i]) && IsSpace(r[i + 1])) {
        if i >= |w| {
          assert r[i] == rest[i - |w|] && r[i + 1] == rest[i + 1 - |w|];
        } else {
          assert r[i + 1] == rest[0];
        }
      }
    }
  }

  /** Squeeze keeps a final character that is not white space. */
  lemma {:induction false} SqueezeLast(s: string, space: bool)
    requires s != [] && !IsSpace(s[|s| - 1])
    ensures Squeeze(s, space) != [] && Squeeze(s, space)[|Squeeze(s, space)| - 1] == s[|s| - 1]
    decreases |s|
  {
    var (w, next) := SqueezeStep(s[0], space);
    if |s| > 1 {
      assert s[1..][|s[1..]| - 1] == s[|s| - 1];
      SqueezeLast(s[1..], next);
    }
  }

  /** Squeeze drops white space only. */
  lemma {:induction false} SqueezeNonSpace(s: string, space: bool)
    ensures NonSpace(Squeeze(s, space)) == NonSpace(s)
    decreases |s|
  {
    if s != [] {
      var (w, next) := SqueezeStep(s[0], space);
      SqueezeNonSpace(s[1..], next);
      NonSpaceAppend(w, Squeeze(s[1..], next));
    }
  }

  /** TrimSpace drops white space only. */
  lemma {:induction false} TrimNonSpace(s: string)
    ensures NonSpace(TrimSpace(s)) == NonSpace(s)
    decreases |s|
  {
    if |s| > 0 && IsSpace(s[0]) {
      TrimNonSpace(s[1..]);
    } else if |s| > 0 && IsSpace(s[|s| - 1]) {
      TrimNonSpace(s[..|s| - 1]);
      assert s == s[..|s| - 1] + [s[|s| - 1]];
      NonSpaceAppend(s[..|s| - 1], [s[|s| - 1]]);
    }
  }

  /** A normalised text has no white space at its ends, only single plain
      spaces inside, and every other character of the input in order. */
  lemma NormalizeForPromptShape(text: string)
    ensures var r := NormalizeForPrompt(text);
      && Squeezed(r)
      && (r == [] || (!IsSpace(r[0]) && !IsSpace(r[|r| - 1])))
      && NonSpace(r) == NonSpace(text)
  {
    var t := TrimSpace(text);
    TrimNonSpace(text);
    TrimSpaceEnds(text);
    if t != "" {
      SqueezeShape(t, false);
      SqueezeLast(t, false);
      SqueezeNonSpace(t, false);
    } else {
      TrimSpaceEmpty(text);
      NonSpaceAllSpace(text);
    }
  }

  lemma {:induction false} NonSpaceAllSpace(s: string)
    requires forall i :: 0 <= i < |s| ==> IsSpace(s[i])
    ensures NonSpace(s) == []
    decreases |s|
  {
    if s != [] {
      NonSpaceAllSpace(s[1..]);
    }
  }

  /** Squeeze leaves squeezed text alone. */
  lemma {:induction false} SqueezeFixed(s: string, space: bool)
    requires Squeezed(s)
    requires space && s != [] ==> !IsSpace(s[0])
    ensures Squeeze(s, space) == s
    decreases |s|
  {
    if s != [] {
      assert Squeezed(s[1..]);
      if IsSpace(s[0]) {
        assert s[0] == ' ';
        assert s[1..] != [] ==> !IsSpace(s[1..][0]);
        SqueezeFixed(s[1..], true);
      } else {
        SqueezeFixed(s[1..], false);
      }
    }
  }

  /** Normalising twice is normalising once. */
  lemma NormalizeForPromptIdempotent(text: string)
    ensures NormalizeForPrompt(NormalizeForPrompt(text)) == NormalizeForPrompt(text)
  {
    var r := NormalizeForPrompt(text);
    NormalizeForPromptShape(text);
    TrimSpaceUntouched(r);
    if r != [] {
      SqueezeFixed(r, false);
    }
  }

  // ---------------------------------------------------------------------
  // truncateText, formatContextBlock

  /** truncateText: the trimmed text, or its first `limit` characters and
      "..." when it is longer than a positive limit. */
  function TruncateText(text: string, limit: int): (r: string)
    ensures limit <= 0 || |TrimSpace(text)| <= limit ==> r == TrimSpace(text)
    ensures limit > 0 && |TrimSpace(text)| > limit ==>
      |r| == limit + 3 && r[..limit] == TrimSpace(text)[..limit] && HasSuffix(r, "...")
    ensures limit > 0 ==> |r| <= limit + 3
  {
    var t := TrimSpace(text);
    if limit <= 0 || |t| <= limit then t else t[..limit] + "..."
  }

  /** A truncated text introduces no character other than '.'. */
  lemma TruncateKeepsOut(text: string, limit: int, c: char)
    requires c !in text && c != '.'
    ensures c !in TruncateText(text, limit)
  {
    TrimSpaceKeepsOut(text, c);
    var t := TrimSpace(text);
    if limit > 0 && |t| > limit {
      assert c !in t[..limit];
    }
  }

  /** The snippet of a chunk in its block. */
  function Snippet(content: string): (s: string)
    ensures |s| <= MaxSnippetChars + 3
    ensures '\n' !in s
  {
    NoNewline(content);
    TruncateKeepsOut(NormalizeForPrompt(content), MaxSnippetChars, '\n');
    TruncateText(NormalizeForPrompt(content), MaxSnippetChars)
  }

  lemma NoNewline(content: string)
    ensures '\n' !in NormalizeForPrompt(content)
  {
    NormalizeForPromptShape(content);
  }

  /** The first line of a block. */
  function Header(index: int, meta: ChunkMeta): string {
    "[" + IntToString(index) + "] doc=" + meta.documentId + " chunk=" + meta.chunkId
    + (if meta.section != "" then " section=" + meta.section else "")
    + (if meta.pageNo > 0 then " page=" + IntToString(meta.pageNo) else "")
  }

  /** formatContextBlock. */
  function FormatContextBlock(index: int, meta: ChunkMeta): string {
    Header(index, meta) + "\n" + Snippet(meta.content)
  }

  lemma IntToStringNoNewline(n: int)
    ensures '\n' !in IntToString(n)
  {
    if n < 0 {
      assert '\n' !in NatToString(-n);
    } else {
      assert '\n' !in NatToString(n);
    }
  }

  /** A block is exactly two lines, its header and its snippet, when the
      chunk's ids and section hold no line break. */
  lemma BlockLines(index: int, meta: ChunkMeta)
    requires '\n' !in meta.documentId && '\n' !in meta.chunkId && '\n' !in meta.section
    ensures Split(FormatContextBlock(index, meta), '\n') == [Header(index, meta), Snippet(meta.content)]
  {
    IntToStringNoNewline(index);
    IntToStringNoNewline(meta.pageNo);
    var h := Header(index, meta);
    assert '\n' !in h;
    SplitPrefix(h, Snippet(meta.content), '\n');
    SplitFree(Snippet(meta.content), '\n');
  }

  // ---------------------------------------------------------------------
  // selectContext

  /** How many blocks a document already has (a Go map reads 0 when the
      key is absent). */
  function Count(perDoc: map<string, int>, docId: string): int {
    if docId in perDoc then perDoc[docId] else 0
  }

  /** Stands in for contentFingerprint: the sha256 of the lower-cased
      normalised text is taken to be as distinctive as that text. */
  function Fingerprint(content: string): string {
    Lower(NormalizeForPrompt(content))
  }

  datatype Choice = Skip | Take(meta: ChunkMeta, key: string, docId: string)

  /** One pass of the selectContext loop over a ranked item: a missing or
      blank chunk, a repeated fingerprint and a document that already has
      three blocks are skipped. */
  function Consider(item: ScoredChunk, chunks: map<string, ChunkMeta>, seen: set<string>,
                    perDoc: map<string, int>): (c: Choice)
    ensures c.Take? ==>
      Id(item) in chunks && c.meta == chunks[Id(item)] && TrimSpace(c.meta.content) != "" &&
      c.key == Fingerprint(c.meta.content) && c.key !in seen &&
      c.docId == TrimSpace(c.meta.documentId) && (c.docId != "" ==> Count(perDoc, c.docId) < MaxBlocksPerDoc)
  {
    var id := Id(item);
    if id !in chunks || TrimSpace(chunks[id].content) == "" then Skip
    else
      var meta := chunks[id];
      var key := Fingerprint(meta.content);
      if key in seen then Skip
      else
        var docId := TrimSpace(meta.documentId);
        if docId != "" && Count(perDoc, docId) >= MaxBlocksPerDoc then Skip
        else Take(meta, key, docId)
  }

  function Bump(perDoc: map<string, int>, docId: string): map<string, int> {
    if docId != "" then perDoc[docId := Count(perDoc, docId) + 1] else perDoc
  }

  /** The blocks the loop selects from `items` on, with `room` blocks
      left before it stops. */
  function SelectFrom(items: seq<ScoredChunk>, chunks: map<string, ChunkMeta>, seen: set<string>,
                      perDoc: map<string, int>, room: nat): seq<ChunkMeta>
    requires room >= 1
    decreases |items|
  {
    if items == [] then []
    else
      match Consider(items[0], chunks, seen, perDoc)
      case Skip => SelectFrom(items[1..], chunks, seen, perDoc, room)
      case Take(meta, key, docId) =>
        [meta] + (if room == 1 then [] else SelectFrom(items[1..], chunks, seen + {key}, Bump(perDoc, docId), room - 1))
  }

  /** selectContext. */
  function SelectContext(ranked: seq<ScoredChunk>, chunks: map<string, ChunkMeta>): (r: seq<ChunkMeta>)
    ensures ranked == [] || chunks == map[] ==> r == []
  {
    if |ranked| == 0 || |chunks| == 0 then [] else SelectFrom(ranked, chunks, {}, map[], MaxContextBlocks)
  }

  /** The selectContext loop with its seen fingerprints and per-document
      counts. */
  method SelectContextLoop(ranked: seq<ScoredChunk>, chunks: map<string, ChunkMeta>) returns (out: seq<ChunkMeta>)
    ensures out == SelectContext(ranked, chunks)
  {
    if |ranked| == 0 || |chunks| == 0 {
      return [];
    }
    var seen: set<string> := {};
    var perDoc: map<string, int> := map[];
    out := [];
    var rest := ranked;
    ghost var target := SelectFrom(ranked, chunks, {}, map[], MaxContextBlocks);
    assert out + target == target;
    while rest != []
      invariant |out| < MaxContextBlocks
      invariant out + SelectFrom(rest, chunks, seen, perDoc, MaxContextBlocks - |out|) == target
      decreases |rest|
    {
      var choice := Consider(rest[0], chunks, seen, perDoc);
      SelectStep(rest, chunks, seen, perDoc, choice, out, target);
      if choice.Take? {
        seen := seen + {choice.key};
        perDoc := Bump(perDoc, choice.docId);
        out := out + [choice.meta];
        if |out| >= MaxContextBlocks {
          return;
        }
      }
      rest := rest[1..];
    }
    assert out + [] == out;
  }

  /** One turn of the selectContext loop keeps its invariant: the blocks
      chosen so far followed by what the rest of the items select are the
      whole selection. */
  lemma SelectStep(items: seq<ScoredChunk>, chunks: map<string, ChunkMeta>, seen: set<string>,
                   perDoc: map<string, int>, c: Choice, out: seq<ChunkMeta>, target: seq<ChunkMeta>)
    requires items != [] && |out| < MaxContextBlocks && c == Consider(items[0], chunks, seen, perDoc)
    requires out + SelectFrom(items, chunks, seen, perDoc, MaxContextBlocks - |out|) == target
    ensures if c.Skip? then out + SelectFrom(items[1..], chunks, seen, perDoc, MaxContextBlocks - |out|) == target
      else if |out| + 1 == MaxContextBlocks then out + [c.meta] == target
      else (out + [c.meta]) + SelectFrom(items[1..], chunks, seen + {c.key}, Bump(perDoc, c.docId), MaxContextBlocks - |out + [c.meta]|) == target
  {
    var room := MaxContextBlocks - |out|;
    if c.Take? {
      var rest := if room == 1 then [] else SelectFrom(items[1..], chunks, seen + {c.key}, Bump(perDoc, c.docId), room - 1);
      assert SelectFrom(items, chunks, seen, perDoc, room) == [c.meta] + rest;
      ConcatAssoc(out, [c.meta], rest);
      if room == 1 {
        assert (out + [c.meta]) + [] == out + [c.meta];
      }
    }
  }

  lemma ConcatAssoc<T>(a: seq<T>, b: seq<T>, c: seq<T>)
    ensures a + (b + c) == (a + b) + c
  {
  }

  /** A selection has at most `room` blocks. */
  lemma {:induction false} SelectFromSize(items: seq<ScoredChunk>, chunks: map<string, ChunkMeta>,
                                          seen: set<string>, perDoc: map<string, int>, room: nat)
    requires room >= 1
    ensures |SelectFrom(items, chunks, seen, perDoc, room)| <= room
    decreases |items|
  {
    if items != [] {
      match Consider(items[0], chunks, seen, perDoc)
      case Skip =>
        SelectFromSize(items[1..], chunks, seen, perDoc, room);
      case Take(meta, key, docId) =>
        if room > 1 {
          SelectFromSize(items[1..], chunks, seen + {key}, Bump(perDoc, docId), room - 1);
        }
    }
  }

  /** Each block of a selection is the non-blank chunk of a ranked item. */
  lemma {:induction false} SelectFromRanked(items: seq<ScoredChunk>, chunks: map<string, ChunkMeta>,
                                            seen: set<string>, perDoc: map<string, int>, room: nat)
    requires room >= 1
    ensures FromRanked(SelectFrom(items, chunks, seen, perDoc, room), items, chunks)
    decreases |items|
  {
    if items != [] {
      var tail := items[1..];
      match Consider(items[0], chunks, seen, perDoc)
      case Skip =>
        SelectFromRanked(tail, chunks, seen, perDoc, room);
        FromRankedWiden(SelectFrom(tail, chunks, seen, perDoc, room), items, chunks);
      case Take(meta, key, docId) =>
        var rest := if room == 1 then [] else SelectFrom(tail, chunks, seen + {key}, Bump(perDoc, docId), room - 1);
        if room > 1 {
          SelectFromRanked(tail, chunks, seen + {key}, Bump(perDoc, docId), room - 1);
          FromRankedWiden(rest, items, chunks);
        }
        FromRankedCons(meta, rest, items, chunks);
        assert SelectFrom(items, chunks, seen, perDoc, room) == [meta] + rest;
    }
  }

  /** The non-blank chunk of the head item put in front of blocks drawn
      from the items. */
  lemma FromRankedCons(meta: ChunkMeta, rest: seq<ChunkMeta>, items: seq<ScoredChunk>, chunks: map<string, ChunkMeta>)
    requires items != [] && Id(items[0]) in chunks && chunks[Id(items[0])] == meta && TrimSpace(meta.content) != ""
    requires FromRanked(rest, items, chunks)
    ensures FromRanked([meta] + rest, items, chunks)
  {
    var r := [meta] + rest;
    assert ChunkOf(meta, items, chunks);
    forall i | 0 <= i < |r| ensures TrimSpace(r[i].content) != "" && ChunkOf(r[i], items, chunks) {
      if i > 0 {
        assert r[i] == rest[i - 1];
      }
    }
  }

  /** The fingerprints of a selection are new and pairwise different. */
  lemma {:induction false} SelectFromFresh(items: seq<ScoredChunk>, chunks: map<string, ChunkMeta>,
                                           seen: set<string>, perDoc: map<string, int>, room: nat)
    requires room >= 1
    ensures FreshKeys(SelectFrom(items, chunks, seen, perDoc, room), seen)
    decreases |items|
  {
    if items != [] {
      var tail := items[1..];
      match Consider(items[0], chunks, seen, perDoc)
      case Skip =>
        SelectFromFresh(tail, chunks, seen, perDoc, room);
      case Take(meta, key, docId) =>
        if room > 1 {
          SelectFromFresh(tail, chunks, seen + {key}, Bump(perDoc, docId), room - 1);
          FreshCons(meta, SelectFrom(tail, chunks, seen + {key}, Bump(perDoc, docId), room - 1), seen, key);
        } else {
          FreshCons(meta, [], seen, key);
        }
    }
  }

  lemma FreshCons(meta: ChunkMeta, rest: seq<ChunkMeta>, seen: set<string>, key: string)
    requires key == Fingerprint(meta.content) && key !in seen && FreshKeys(rest, seen + {key})
    ensures FreshKeys([meta] + rest, seen)
  {
    var r := [meta] + rest;
    forall i | 0 <= i < |r| ensures Fingerprint(r[i].content) !in seen {
      if i > 0 {
        assert r[i] == rest[i - 1];
      }
    }
    forall i, j | 0 <= i < j < |r| ensures Fingerprint(r[i].content) != Fingerprint(r[j].content) {
      assert r[j] == rest[j - 1];
      if i > 0 {
        assert r[i] == rest[i - 1];
      }
    }
  }

  /** `meta` is the chunk of some ranked item. */
  predicate ChunkOf(meta: ChunkMeta, items: seq<ScoredChunk>, chunks: map<string, ChunkMeta>) {
    exists k :: 0 <= k < |items| && Id(items[k]) in chunks && chunks[Id(items[k])] == meta
  }

  /** Every block is the non-blank chunk of some ranked item. */
  predicate FromRanked(r: seq<ChunkMeta>, items: seq<ScoredChunk>, chunks: map<string, ChunkMeta>) {
    forall i :: 0 <= i < |r| ==> TrimSpace(r[i].content) != "" && ChunkOf(r[i], items, chunks)
  }

  /** No block repeats a fingerprint, or has one in `seen`. */
  predicate FreshKeys(r: seq<ChunkMeta>, seen: set<string>) {
    && (forall i :: 0 <= i < |r| ==> Fingerprint(r[i].content) !in seen)
    && (forall i, j :: 0 <= i < j < |r| ==> Fingerprint(r[i].content) != Fingerprint(r[j].content))
  }

  lemma FromRankedWiden(r: seq<ChunkMeta>, items: seq<ScoredChunk>, chunks: map<string, ChunkMeta>)
    requires items != [] && FromRanked(r, items[1..], chunks)
    ensures FromRanked(r, items, chunks)
  {
    forall i | 0 <= i < |r| ensures ChunkOf(r[i], items, chunks) {
      assert ChunkOf(r[i], items[1..], chunks);
      var k :| 0 <= k < |items[1..]| && Id(items[1..][k]) in chunks && chunks[Id(items[1..][k])] == r[i];
      assert items[1..][k] == items[k + 1];
    }
  }

  /** The number of blocks of a (trimmed) document id. */
  function DocCount(r: seq<ChunkMeta>, docId: string): nat {
    if r == [] then 0 else (if TrimSpace(r[0].documentId) == docId then 1 else 0) + DocCount(r[1..], docId)
  }

  /** A document gets at most three blocks in all. */
  lemma {:induction false} SelectFromPerDoc(items: seq<ScoredChunk>, chunks: map<string, ChunkMeta>,
                                            seen: set<string>, perDoc: map<string, int>, room: nat, docId: string)
    requires room >= 1 && docId != "" && Count(perDoc, docId) <= MaxBlocksPerDoc
    ensures Count(perDoc, docId) + DocCount(SelectFrom(items, chunks, seen, perDoc, room), docId) <= MaxBlocksPerDoc
    decreases |items|
  {
    if items != [] {
      var tail := items[1..];
      match Consider(items[0], chunks, seen, perDoc)
      case Skip =>
        SelectFromPerDoc(tail, chunks, seen, perDoc, room, docId);
      case Take(meta, key, d) =>
        var r := SelectFrom(items, chunks, seen, perDoc, room);
        var rest := if room == 1 then [] else SelectFrom(tail, chunks, seen + {key}, Bump(perDoc, d), room - 1);
        assert r == [meta] + rest;
        assert r[1..] == rest;
        if room > 1 {
          SelectFromPerDoc(tail, chunks, seen + {key}, Bump(perDoc, d), room - 1, docId);
        }
        assert Count(Bump(perDoc, d), docId) == Count(perDoc, docId) + (if d == docId then 1 else 0);
    }
  }

  /** `idx` lists, in strictly increasing order, the ranked positions whose
      chunks are the blocks of `r`: the blocks keep the ranked order. */
  predicate Picks(r: seq<ChunkMeta>, items: seq<ScoredChunk>, chunks: map<string, ChunkMeta>, idx: seq<int>) {
    && |idx| == |r|
    && (forall i :: 0 <= i < |idx| ==>
          0 <= idx[i] < |items| && Id(items[idx[i]]) in chunks && chunks[Id(items[idx[i]])] == r[i])
    && (forall i, j :: 0 <= i < j < |idx| ==> idx[i] < idx[j])
  }

  function Shifted(idx: seq<int>): (r: seq<int>)
    ensures |r| == |idx| && forall i :: 0 <= i < |idx| ==> r[i] == idx[i] + 1
  {
    seq(|idx|, i requires 0 <= i < |idx| => idx[i] + 1)
  }

  /** Positions in the tail are one further on in the whole list. */
  lemma PicksShift(r: seq<ChunkMeta>, items: seq<ScoredChunk>, chunks: map<string, ChunkMeta>, idx: seq<int>)
    requires items != [] && Picks(r, items[1..], chunks, idx)
    ensures Picks(r, items, chunks, Shifted(idx))
    ensures forall i :: 0 <= i < |idx| ==> Shifted(idx)[i] > 0
  {
    forall i | 0 <= i < |idx| ensures items[Shifted(idx)[i]] == items[1..][idx[i]] {
    }
  }

  /** The blocks the loop selects keep the order of the ranked items. */
  lemma {:induction false} SelectFromOrder(items: seq<ScoredChunk>, chunks: map<string, ChunkMeta>,
                                           seen: set<string>, perDoc: map<string, int>, room: nat) returns (idx: seq<int>)
    requires room >= 1
    ensures Picks(SelectFrom(items, chunks, seen, perDoc, room), items, chunks, idx)
    decreases |items|
  {
    if items == [] {
      idx := [];
    } else {
      var tail := items[1..];
      match Consider(items[0], chunks, seen, perDoc)
      case Skip =>
        var t := SelectFromOrder(tail, chunks, seen, perDoc, room);
        PicksShift(SelectFrom(tail, chunks, seen, perDoc, room), items, chunks, t);
        idx := Shifted(t);
      case Take(meta, key, d) =>
        var rest := if room == 1 then [] else SelectFrom(tail, chunks, seen + {key}, Bump(perDoc, d), room - 1);
        var t: seq<int> := [];
        if room > 1 {
          t := SelectFromOrder(tail, chunks, seen + {key}, Bump(perDoc, d), room - 1);
        }
        PicksShift(rest, items, chunks, t);
        PicksCons(meta, rest, items, chunks, Shifted(t));
        assert SelectFrom(items, chunks, seen, perDoc, room) == [meta] + rest;
        idx := [0] + Shifted(t);
    }
  }

  /** The chunk of the head item, at position 0, put in front of blocks
      picked further on. */
  lemma PicksCons(meta: ChunkMeta, rest: seq<ChunkMeta>, items: seq<ScoredChunk>, chunks: map<string, ChunkMeta>, idx: seq<int>)
    requires items != [] && Id(items[0]) in chunks && chunks[Id(items[0])] == meta
    requires Picks(rest, items, chunks, idx) && forall i :: 0 <= i < |idx| ==> idx[i] > 0
    ensures Picks([meta] + rest, items, chunks, [0] + idx)
  {
    var r := [meta] + rest;
    var idx' := [0] + idx;
    forall i | 0 < i < |idx'| ensures idx'[i] == idx[i - 1] && r[i] == rest[i - 1] {
    }
  }

  /** selectContext picks at most twelve blocks, at most three per
      document, never two with the same fingerprint, each the non-blank
      chunk of a ranked item, in the ranked order. */
  lemma SelectContextShape(ranked: seq<ScoredChunk>, chunks: map<string, ChunkMeta>, docId: string)
    requires docId != ""
    ensures |SelectContext(ranked, chunks)| <= MaxContextBlocks
    ensures DocCount(SelectContext(ranked, chunks), docId) <= MaxBlocksPerDoc
    ensures FromRanked(SelectContext(ranked, chunks), ranked, chunks)
    ensures FreshKeys(SelectContext(ranked, chunks), {})
    ensures exists idx :: Picks(SelectContext(ranked, chunks), ranked, chunks, idx)
  {
    if |ranked| == 0 || |chunks| == 0 {
      assert Picks([], ranked, chunks, []);
    } else {
      var idx := SelectFromOrder(ranked, chunks, {}, map[], MaxContextBlocks);
      SelectFromSize(ranked, chunks, {}, map[], MaxContextBlocks);
      SelectFromRanked(ranked, chunks, {}, map[], MaxContextBlocks);
      SelectFromFresh(ranked, chunks, {}, map[], MaxContextBlocks);
      SelectFromPerDoc(ranked, chunks, {}, map[], MaxContextBlocks, docId);
    }
  }

  // ---------------------------------------------------------------------
  // buildPrompt

  const Preamble := "Use the context to answer the question. If the context does not contain the answer, say you don't know.\n\n"
  const NoContext := "(no context available)\n"

  /** The blocks of a selection, numbered from `start`. */
  function Rendered(selected: seq<ChunkMeta>, start: int): (parts: seq<string>)
    ensures |parts| == |selected|
  {
    seq(|selected|, i requires 0 <= i < |selected| => FormatContextBlock(start + i, selected[i]))
  }

  /** Each part followed by a line break. */
  function Terminated(parts: seq<string>): string
    decreases |parts|
  {
    if parts == [] then "" else parts[0] + "\n" + Terminated(parts[1..])
  }

  function Tail(question: string): string {
    "\nQuestion: " + TrimSpace(question) + "\nAnswer:"
  }

  /** The prompt around a selection. */
  function PromptText(question: string, selected: seq<ChunkMeta>): string {
    Preamble + "Context:\n" + Terminated(Rendered(selected, 1)) + (if selected == [] then NoContext else "") + Tail(question)
  }

  /** buildPrompt. */
  function BuildPrompt(question: string, ranked: seq<ScoredChunk>, chunks: map<string, ChunkMeta>): string {
    PromptText(question, SelectContext(ranked, chunks))
  }

  /** The builder of buildPrompt. */
  method WritePrompt(question: string, ranked: seq<ScoredChunk>, chunks: map<string, ChunkMeta>) returns (r: string)
    ensures r == BuildPrompt(question, ranked, chunks)
  {
    var b := Preamble + "Context:\n";
    var selected := SelectContextLoop(ranked, chunks);
    b := WriteBlocks(b, selected);
    if |selected| == 0 {
      b := b + NoContext;
    }
    r := b + Tail(question);
  }

  /** The block loop of buildPrompt: block idx is numbered idx + 1. */
  method WriteBlocks(head: string, selected: seq<ChunkMeta>) returns (b: string)
    ensures b == head + Terminated(Rendered(selected, 1))
  {
    ghost var parts := Rendered(selected, 1);
    b := head;
    var idx := 0;
    assert parts[idx..] == parts;
    while idx < |selected|
      invariant 0 <= idx <= |selected|
      invariant b + Terminated(parts[idx..]) == head + Terminated(parts)
    {
      var block := FormatContextBlock(idx + 1, selected[idx]);
      assert block == parts[idx];
      assert parts[idx..][1..] == parts[idx + 1..];
      assert b + Terminated(parts[idx..]) == (b + block + "\n") + Terminated(parts[idx + 1..]);
      b := b + block + "\n";
      idx := idx + 1;
    }
    assert parts[idx..] == [];
    assert b + "" == b;
  }

  /** Part i sits between the parts before it and the parts after it. */
  lemma {:induction false} TerminatedAt(parts: seq<string>, i: int)
    requires 0 <= i < |parts|
    ensures Terminated(parts) == Terminated(parts[..i]) + parts[i] + "\n" + Terminated(parts[i + 1..])
    decreases i
  {
    if i > 0 {
      TerminatedAt(parts[1..], i - 1);
      assert parts[1..][..i - 1] == parts[1..i];
      assert parts[1..][i - 1] == parts[i];
      assert parts[1..][i..] == parts[i + 1..];
      assert parts[..i][1..] == parts[1..i];
      assert parts[..i][0] == parts[0];
    } else {
      assert parts[..0] == [];
    }
  }

  /** In the context of a prompt, the i-th selected chunk (from 0) is
      written as block number i + 1, after the blocks before it. */
  lemma BlocksNumbered(selected: seq<ChunkMeta>, i: int)
    requires 0 <= i < |selected|
    ensures Terminated(Rendered(selected, 1)) ==
      Terminated(Rendered(selected, 1)[..i]) + FormatContextBlock(i + 1, selected[i]) + "\n" + Terminated(Rendered(selected, 1)[i + 1..])
  {
    TerminatedAt(Rendered(selected, 1), i);
  }

  lemma Framed(head: string, mid: string, tail: string)
    ensures HasPrefix(head + mid + tail, head) && HasSuffix(head + mid + tail, tail)
  {
    var r := head + mid + tail;
    assert r[..|head|] == head;
    assert r == (head + mid) + tail;
    assert r[|r| - |tail|..] == tail;
  }

  /** Every prompt starts with the instructions and the context heading
      and ends with the trimmed question and the answer cue; with nothing
      selected the context says so. */
  lemma PromptShape(question: string, ranked: seq<ScoredChunk>, chunks: map<string, ChunkMeta>)
    ensures HasPrefix(BuildPrompt(question, ranked, chunks), Preamble + "Context:\n")
    ensures HasSuffix(BuildPrompt(question, ranked, chunks), Tail(question))
    ensures SelectContext(ranked, chunks) == [] ==>
      BuildPrompt(question, ranked, chunks) == Preamble + "Context:\n" + NoContext + Tail(question)
  {
    var sel := SelectContext(ranked, chunks);
    var mid := Terminated(Rendered(sel, 1)) + (if sel == [] then NoContext else "");
    Framed(Preamble + "Context:\n", mid, Tail(question));
    if sel == [] {
      assert Terminated(Rendered(sel, 1)) == "";
    }
  }
}
