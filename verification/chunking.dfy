/** Token spans, overlapping token windows and chunk records
    (apps/server/internal/knowledge/biz/chunking.go). Text is a sequence of
    runes; the chunk id and content hash (a SHA-1 uuid and SHA-256) are
    parameters. */
module Chunking {
  import opened Text

  /** A token: runes start..end of the text. */
  datatype Span = Span(start: int, end: int)

  datatype DocChunk = DocChunk(id: string, chunkIndex: int, content: string, tokenCount: int,
                               contentHash: string, language: string, createdAt: int)

  const MaxChunkSize := 8192

  /** A rune that extends a latin/digit token: a letter or digit that is
      not a CJK ideograph. */
  predicate Continues(c: char) {
    !IsCJK(c) && (IsLetter(c) || IsDigit(c))
  }

  /** clampInt. */
  function ClampInt(v: int, lo: int, hi: int): (r: int)
    ensures v < lo ==> r == lo
    ensures lo <= v <= hi ==> r == v
    ensures v >= lo && v > hi ==> r == hi
    ensures lo <= hi ==> lo <= r <= hi
  {
    if v < lo then lo else if v > hi then hi else v
  }

  // ------------------------------------------------------------ tokens

  /** The end of the run of continuing runes that starts at `j`. */
  function RunEnd(s: string, j: int): (e: int)
    requires 0 <= j <= |s|
    ensures j <= e <= |s|
    ensures forall k :: j <= k < e ==> Continues(s[k])
    ensures e == |s| || !Continues(s[e])
    decreases |s| - j
  {
    if j == |s| || !Continues(s[j]) then j else RunEnd(s, j + 1)
  }

  /** The tokens of s[i..], as tokenizeSpans finds them. */
  function TokensFrom(s: string, i: int): (spans: seq<Span>)
    requires 0 <= i <= |s|
    ensures forall k :: 0 <= k < |spans| ==> i <= spans[k].start < spans[k].end <= |s|
    decreases |s| - i
  {
    if i == |s| then []
    else if IsCJK(s[i]) then [Span(i, i + 1)] + TokensFrom(s, i + 1)
    else if IsLetter(s[i]) || IsDigit(s[i]) then
      var e := RunEnd(s, i + 1);
      [Span(i, e)] + TokensFrom(s, e)
    else TokensFrom(s, i + 1)
  }

  function Tokens(s: string): (spans: seq<Span>)
    ensures forall k :: 0 <= k < |spans| ==> 0 <= spans[k].start < spans[k].end <= |s|
  {
    TokensFrom(s, 0)
  }

  /** Spans inside the text, each non-empty and ending before the next
      starts. */
  predicate Ordered(s: string, t: seq<Span>)
    decreases |t|
  {
    |t| == 0 ||
    (0 <= t[0].start < t[0].end <= |s| && (|t| == 1 || t[0].end <= t[1].start) && Ordered(s, t[1..]))
  }

  /** What ordering gives for any two spans. */
  lemma {:induction false} SpanOrder(s: string, t: seq<Span>, a: int, b: int)
    requires Ordered(s, t) && 0 <= a <= b < |t|
    ensures 0 <= t[a].start < t[b].end <= |s|
    ensures t[a].start <= t[b].start && t[a].end <= t[b].end
    ensures a < b ==> t[a].end <= t[b].start
    decreases a + b
  {
    if a > 0 {
      SpanOrder(s, t[1..], a - 1, b - 1);
    } else if b > 0 {
      SpanOrder(s, t[1..], 0, b - 1);
    }
  }

  lemma {:induction false} TokensFromOrdered(s: string, i: int)
    requires 0 <= i <= |s|
    ensures Ordered(s, TokensFrom(s, i))
    decreases |s| - i
  {
    if i < |s| {
      var next := if IsCJK(s[i]) then i + 1 else if IsLetter(s[i]) || IsDigit(s[i]) then RunEnd(s, i + 1) else i + 1;
      TokensFromOrdered(s, next);
      var spans := TokensFrom(s, i);
      if spans != TokensFrom(s, next) {
        assert spans[1..] == TokensFrom(s, next);
      }
    }
  }

  /** The tokens of a text are in order and do not overlap. */
  lemma TokensOrdered(s: string)
    ensures Ordered(s, Tokens(s))
    ensures forall a, b :: 0 <= a < b < |Tokens(s)| ==> Tokens(s)[a].end <= Tokens(s)[b].start
  {
    TokensFromOrdered(s, 0);
    forall a, b | 0 <= a < b < |Tokens(s)|
      ensures Tokens(s)[a].end <= Tokens(s)[b].start
    {
      SpanOrder(s, Tokens(s), a, b);
    }
  }

  /** A span is one CJK rune, or a maximal run of continuing runes. */
  predicate WellShaped(s: string, t: Span)
    requires 0 <= t.start < t.end <= |s|
  {
    (IsCJK(s[t.start]) && t.end == t.start + 1) ||
    ((forall k :: t.start <= k < t.end ==> Continues(s[k])) &&
     (t.end == |s| || !Continues(s[t.end])) &&
     (t.start == 0 || !Continues(s[t.start - 1])))
  }

  /** Every token is well shaped. */
  lemma {:induction false} TokensWellShaped(s: string, i: int)
    requires 0 <= i <= |s|
    requires i == 0 || i == |s| || !Continues(s[i - 1]) || !Continues(s[i])
    ensures forall k :: 0 <= k < |TokensFrom(s, i)| ==> WellShaped(s, TokensFrom(s, i)[k])
    decreases |s| - i
  {
    if i < |s| {
      if IsCJK(s[i]) {
        TokensWellShaped(s, i + 1);
      } else if IsLetter(s[i]) || IsDigit(s[i]) {
        var e := RunEnd(s, i + 1);
        TokensWellShaped(s, e);
        assert WellShaped(s, Span(i, e));
      } else {
        TokensWellShaped(s, i + 1);
      }
    }
  }

  predicate Covered(spans: seq<Span>, p: int)
  {
    exists k :: 0 <= k < |spans| && spans[k].start <= p < spans[k].end
  }

  /** Every letter or digit of the text lies inside some token: only
      other runes are skipped. */
  lemma {:induction false} TokensCover(s: string, i: int)
    requires 0 <= i <= |s|
    ensures forall p :: i <= p < |s| && (IsLetter(s[p]) || IsDigit(s[p])) ==> Covered(TokensFrom(s, i), p)
    decreases |s| - i
  {
    if i < |s| {
      var spans := TokensFrom(s, i);
      var next := if IsCJK(s[i]) then i + 1 else if IsLetter(s[i]) || IsDigit(s[i]) then RunEnd(s, i + 1) else i + 1;
      TokensCover(s, next);
      var rest := TokensFrom(s, next);
      assert spans == rest || spans == [spans[0]] + rest;
      forall p | i <= p < |s| && (IsLetter(s[p]) || IsDigit(s[p]))
        ensures Covered(spans, p)
      {
        if p < next {
          assert spans[0].start <= p < spans[0].end;
        } else {
          var k :| 0 <= k < |rest| && rest[k].start <= p < rest[k].end;
          if spans == rest {
            assert spans[k].start <= p < spans[k].end;
          } else {
            assert spans[k + 1] == rest[k];
          }
        }
      }
    }
  }

  /** The end of the run from `j`, scanned rune by rune. */
  method ScanRun(s: string, j: int) returns (e: int)
    requires 0 <= j <= |s|
    ensures e == RunEnd(s, j)
  {
    e := j;
    while e < |s| && Continues(s[e])
      invariant j <= e <= |s|
      invariant RunEnd(s, e) == RunEnd(s, j)
      decreases |s| - e
    {
      e := e + 1;
    }
  }

  /** tokenizeSpans. */
  method TokenizeSpans(s: string) returns (out: seq<Span>)
    ensures out == Tokens(s)
  {
    out := [];
    var i := 0;
    while i < |s|
      invariant 0 <= i <= |s|
      invariant out + TokensFrom(s, i) == Tokens(s)
      decreases |s| - i
    {
      var r := s[i];
      var next;
      if IsCJK(r) {
        next := i + 1;
        assert TokensFrom(s, i) == [Span(i, next)] + TokensFrom(s, next);
        assert out + ([Span(i, next)] + TokensFrom(s, next)) == (out + [Span(i, next)]) + TokensFrom(s, next);
        out := out + [Span(i, next)];
      } else if IsLetter(r) || IsDigit(r) {
        next := ScanRun(s, i + 1);
        assert TokensFrom(s, i) == [Span(i, next)] + TokensFrom(s, next);
        assert out + ([Span(i, next)] + TokensFrom(s, next)) == (out + [Span(i, next)]) + TokensFrom(s, next);
        out := out + [Span(i, next)];
      } else {
        next := i + 1;
        assert TokensFrom(s, i) == TokensFrom(s, next);
      }
      i := next;
    }
  }

  // ------------------------------------------------------------ windows

  /** Token windows from `start`: each covers `size` tokens (fewer at the
      end), the next starts `step` tokens later (WindowStep), and the
      window that reaches the last token is the last one. */
  function WindowRanges(n: int, size: int, step: int, start: int): (r: seq<(int, int)>)
    requires 1 <= step <= size && 0 <= start < n
    ensures |r| >= 1 && r[0].0 == start
    ensures forall k :: 0 <= k < |r| ==>
      (r[k].1 == (if r[k].0 + size < n then r[k].0 + size else n) && start <= r[k].0 < r[k].1)
    ensures r[|r| - 1].1 == n
    ensures forall k :: 0 <= k < |r| - 1 ==> r[k].1 < n
    decreases n - start
  {
    var end := if start + size < n then start + size else n;
    if end == n then [(start, end)]
    else [(start, end)] + WindowRanges(n, size, step, start + step)
  }

  /** Window k+1 starts `step` tokens after window k. */
  lemma {:induction false} WindowStep(n: int, size: int, step: int, start: int, k: int)
    requires 1 <= step <= size && 0 <= start < n
    requires 0 <= k < |WindowRanges(n, size, step, start)| - 1
    ensures WindowRanges(n, size, step, start)[k + 1].0 == WindowRanges(n, size, step, start)[k].0 + step
    decreases n - start
  {
    var rest := WindowRanges(n, size, step, start + step);
    if k > 0 {
      WindowStep(n, size, step, start + step, k - 1);
    }
  }

  lemma MulStep(k: int, step: int)
    ensures (k - 1) * step + step == k * step
  {
  }

  /** Window k starts k steps after the first. */
  lemma {:induction false} WindowStart(n: int, size: int, step: int, start: int, k: int)
    requires 1 <= step <= size && 0 <= start < n
    requires 0 <= k < |WindowRanges(n, size, step, start)|
    ensures WindowRanges(n, size, step, start)[k].0 == start + k * step
  {
    var r := WindowRanges(n, size, step, start);
    if k > 0 {
      WindowStart(n, size, step, start, k - 1);
      WindowStep(n, size, step, start, k - 1);
      MulStep(k, step);
    }
  }

  predicate InWindow(r: seq<(int, int)>, j: int)
  {
    exists k :: 0 <= k < |r| && r[k].0 <= j < r[k].1
  }

  /** Every token is in some window. */
  lemma {:induction false} WindowsCover(n: int, size: int, step: int, start: int)
    requires 1 <= step <= size && 0 <= start < n
    ensures forall j :: start <= j < n ==> InWindow(WindowRanges(n, size, step, start), j)
    decreases n - start
  {
    var r := WindowRanges(n, size, step, start);
    if start + size < n {
      var rest := WindowRanges(n, size, step, start + step);
      WindowsCover(n, size, step, start + step);
      forall j | start <= j < n
        ensures InWindow(r, j)
      {
        if j < r[0].1 {
          assert r[0].0 <= j < r[0].1;
        } else {
          assert start + step <= j;
          assert InWindow(rest, j);
          var k :| 0 <= k < |rest| && rest[k].0 <= j < rest[k].1;
          assert r[k + 1] == rest[k];
        }
      }
    } else {
      forall j | start <= j < n
        ensures InWindow(r, j)
      {
        assert r[0].0 <= j < r[0].1;
      }
    }
  }

  /** The chunk size and step splitByTokens works with. */
  function WindowShape(n: int, chunkSize: int, overlap: int): (r: (int, int))
    requires n >= 1
    ensures 1 <= r.1 <= r.0
    ensures chunkSize >= 1 ==> r.0 == chunkSize
    ensures chunkSize <= 0 ==> r.0 == n
    ensures 0 <= overlap < r.0 ==> r.1 == r.0 - overlap
    ensures overlap < 0 ==> r.1 == r.0
    ensures overlap >= r.0 ==> r.1 == 1
  {
    var size := if chunkSize <= 0 then n else chunkSize;
    var ov := if overlap < 0 then 0 else overlap;
    var ov' := if ov >= size then size - 1 else ov;
    var step := size - ov';
    (size, if step <= 0 then size else step)
  }

  /** The token windows of a text with at least one token. */
  function Windows(s: string, chunkSize: int, overlap: int): (w: seq<(int, int)>)
    requires |Tokens(s)| > 0
    ensures |w| >= 1 && w[0].0 == 0 && w[|w| - 1].1 == |Tokens(s)|
    ensures forall k :: 0 <= k < |w| ==> 0 <= w[k].0 < w[k].1 <= |Tokens(s)|
  {
    var shape := WindowShape(|Tokens(s)|, chunkSize, overlap);
    WindowRanges(|Tokens(s)|, shape.0, shape.1, 0)
  }

  /** The text of token window `w`: from its first token's start to its
      last token's end. */
  function WindowText(s: string, tokens: seq<Span>, w: (int, int)): string
    requires Ordered(s, tokens) && 0 <= w.0 < w.1 <= |tokens|
  {
    SpanOrder(s, tokens, w.0, w.1 - 1);
    s[tokens[w.0].start..tokens[w.1 - 1].end]
  }

  /** The parts from token `start` on, window by window. */
  function PartsFrom(s: string, tokens: seq<Span>, size: int, step: int, start: int): (parts: seq<string>)
    requires Ordered(s, tokens) && 1 <= step <= size && 0 <= start < |tokens|
    decreases |tokens| - start
  {
    var end := if start + size < |tokens| then start + size else |tokens|;
    var part := WindowText(s, tokens, (start, end));
    if end == |tokens| then [part] else [part] + PartsFrom(s, tokens, size, step, start + step)
  }

  /** What splitByTokens returns. */
  function SplitText(s: string, chunkSize: int, overlap: int): (parts: seq<string>)
  {
    TokensOrdered(s);
    var tokens := Tokens(s);
    if |tokens| == 0 then []
    else
      var shape := WindowShape(|tokens|, chunkSize, overlap);
      PartsFrom(s, tokens, shape.0, shape.1, 0)
  }

  /** One part per window. */
  lemma {:induction false} PartsCount(s: string, tokens: seq<Span>, size: int, step: int, start: int)
    requires Ordered(s, tokens) && 1 <= step <= size && 0 <= start < |tokens|
    ensures |PartsFrom(s, tokens, size, step, start)| == |WindowRanges(|tokens|, size, step, start)|
    decreases |tokens| - start
  {
    if start + size < |tokens| {
      PartsCount(s, tokens, size, step, start + step);
      assert |PartsFrom(s, tokens, size, step, start)| == 1 + |PartsFrom(s, tokens, size, step, start + step)|;
      assert |WindowRanges(|tokens|, size, step, start)| == 1 + |WindowRanges(|tokens|, size, step, start + step)|;
    }
  }

  /** Part k is the text of window k. */
  lemma {:induction false} PartsAreWindows(s: string, tokens: seq<Span>, size: int, step: int, start: int, k: int)
    requires Ordered(s, tokens) && 1 <= step <= size && 0 <= start < |tokens|
    requires 0 <= k < |WindowRanges(|tokens|, size, step, start)|
    ensures |PartsFrom(s, tokens, size, step, start)| == |WindowRanges(|tokens|, size, step, start)|
    ensures PartsFrom(s, tokens, size, step, start)[k] == WindowText(s, tokens, WindowRanges(|tokens|, size, step, start)[k])
    decreases |tokens| - start
  {
    PartsCount(s, tokens, size, step, start);
    var end := if start + size < |tokens| then start + size else |tokens|;
    if end < |tokens| {
      var rest := PartsFrom(s, tokens, size, step, start + step);
      var later := WindowRanges(|tokens|, size, step, start + step);
      assert PartsFrom(s, tokens, size, step, start) == [WindowText(s, tokens, (start, end))] + rest;
      assert WindowRanges(|tokens|, size, step, start) == [(start, end)] + later;
      if k > 0 {
        PartsAreWindows(s, tokens, size, step, start + step, k - 1);
      }
    }
  }

  /** Part k of a split is the text of window k: the text from the first
      token to the last token of the window. */
  lemma SplitTextWindows(s: string, chunkSize: int, overlap: int)
    requires |Tokens(s)| > 0
    requires Ordered(s, Tokens(s))
    ensures |SplitText(s, chunkSize, overlap)| == |Windows(s, chunkSize, overlap)|
    ensures forall k :: 0 <= k < |SplitText(s, chunkSize, overlap)| ==>
      SplitText(s, chunkSize, overlap)[k] == WindowText(s, Tokens(s), Windows(s, chunkSize, overlap)[k])
  {
    var shape := WindowShape(|Tokens(s)|, chunkSize, overlap);
    PartsCount(s, Tokens(s), shape.0, shape.1, 0);
    forall k | 0 <= k < |SplitText(s, chunkSize, overlap)|
      ensures SplitText(s, chunkSize, overlap)[k] == WindowText(s, Tokens(s), Windows(s, chunkSize, overlap)[k])
    {
      PartsAreWindows(s, Tokens(s), shape.0, shape.1, 0, k);
    }
  }

  /** Every token of the text lies in some part's window. */
  lemma SplitCoversTokens(s: string, chunkSize: int, overlap: int)
    requires |Tokens(s)| > 0
    ensures forall j :: 0 <= j < |Tokens(s)| ==> InWindow(Windows(s, chunkSize, overlap), j)
  {
    var shape := WindowShape(|Tokens(s)|, chunkSize, overlap);
    WindowsCover(|Tokens(s)|, shape.0, shape.1, 0);
  }

  /** A text with no more tokens than the chunk size is one part, running
      from its first token to its last. */
  lemma ShortTextOnePart(s: string, chunkSize: int, overlap: int)
    requires 0 < |Tokens(s)| && (chunkSize <= 0 || |Tokens(s)| <= chunkSize)
    requires Ordered(s, Tokens(s))
    ensures SplitText(s, chunkSize, overlap) == [WindowText(s, Tokens(s), (0, |Tokens(s)|))]
  {
  }

  /** Consecutive windows share exactly `overlap` tokens when the overlap
      is below the chunk size. */
  lemma WindowsOverlap(s: string, chunkSize: int, overlap: int, k: int)
    requires |Tokens(s)| > 0 && 0 <= overlap < chunkSize
    requires 0 <= k < |Windows(s, chunkSize, overlap)| - 1
    ensures Windows(s, chunkSize, overlap)[k].1 - Windows(s, chunkSize, overlap)[k + 1].0 == overlap
  {
    var shape := WindowShape(|Tokens(s)|, chunkSize, overlap);
    WindowStep(|Tokens(s)|, shape.0, shape.1, 0, k);
  }

  /** The clamping at the head of splitByTokens: a non-positive size means
      one window for all tokens, and the overlap is kept below the size. */
  method WindowParams(n: int, chunkSize: int, overlap: int) returns (size: int, step: int)
    requires n >= 1
    ensures (size, step) == WindowShape(n, chunkSize, overlap)
  {
    size := chunkSize;
    if size <= 0 {
      size := n;
    }
    var ov := overlap;
    if ov < 0 {
      ov := 0;
    }
    if ov >= size {
      ov := size - 1;
    }
    step := size - ov;
    if step <= 0 {
      step := size;
    }
  }

  lemma SplitTextIs(s: string, chunkSize: int, overlap: int, size: int, step: int)
    requires |Tokens(s)| > 0 && (size, step) == WindowShape(|Tokens(s)|, chunkSize, overlap)
    requires Ordered(s, Tokens(s))
    ensures SplitText(s, chunkSize, overlap) == PartsFrom(s, Tokens(s), size, step, 0)
  {
  }

  /** One iteration of splitByTokens: the window from `start` is emitted,
      and the rest follow from `start + step` unless it reached the end. */
  lemma PartsFromStep(s: string, tokens: seq<Span>, size: int, step: int, start: int, out: seq<string>)
    requires Ordered(s, tokens) && 1 <= step <= size && 0 <= start < |tokens|
    ensures var end := if start + size < |tokens| then start + size else |tokens|;
      0 <= tokens[start].start <= tokens[end - 1].end <= |s| &&
      out + PartsFrom(s, tokens, size, step, start) ==
        (out + [s[tokens[start].start..tokens[end - 1].end]]) +
        (if end == |tokens| then [] else PartsFrom(s, tokens, size, step, start + step))
  {
    var end := if start + size < |tokens| then start + size else |tokens|;
    SpanOrder(s, tokens, start, end - 1);
  }

  /** splitByTokens. */
  method SplitByTokens(s: string, chunkSize: int, overlap: int) returns (out: seq<string>)
    ensures out == SplitText(s, chunkSize, overlap)
  {
    if |s| == 0 {
      assert Tokens(s) == [];
      return [];
    }
    var tokens := TokenizeSpans(s);
    if |tokens| == 0 {
      return [];
    }
    TokensOrdered(s);
    var size, step := WindowParams(|tokens|, chunkSize, overlap);
    SplitTextIs(s, chunkSize, overlap, size, step);
    out := EmitWindows(s, tokens, size, step);
  }

  /** The window loop of splitByTokens: window after window, `step` tokens
      apart, until one reaches the last token. */
  method EmitWindows(s: string, tokens: seq<Span>, size: int, step: int) returns (out: seq<string>)
    requires Ordered(s, tokens) && 1 <= step <= size && |tokens| > 0
    ensures out == PartsFrom(s, tokens, size, step, 0)
  {
    out := [];
    var start := 0;
    while true
      invariant 0 <= start < |tokens|
      invariant out + PartsFrom(s, tokens, size, step, start) == PartsFrom(s, tokens, size, step, 0)
      decreases |tokens| - start
    {
      var end := start + size;
      if end > |tokens| {
        end := |tokens|;
      }
      PartsFromStep(s, tokens, size, step, start, out);
      out := out + [s[tokens[start].start..tokens[end - 1].end]];
      if end == |tokens| {
        break;
      }
      start := start + step;
    }
  }

  // ------------------------------------------------------------ language

  function CjkCount(s: string): nat
  {
    if s == [] then 0 else CjkCount(s[..|s| - 1]) + (if IsCJK(s[|s| - 1]) then 1 else 0)
  }

  /** Letters and digits up to U+00FF that are not CJK. */
  function LatinCount(s: string): nat
  {
    if s == [] then 0
    else
      var c := s[|s| - 1];
      LatinCount(s[..|s| - 1]) + (if !IsCJK(c) && c as int <= 0xFF && (IsLetter(c) || IsDigit(c)) then 1 else 0)
  }

  /** The verdict of detectLanguage on the two counts. */
  function Language(cjk: nat, latin: nat): (r: string)
    ensures r == "zh" <==> cjk >= 10 && cjk >= latin
    ensures r == "en" <==> latin >= 10 && latin > cjk
    ensures r == "" <==> !(cjk >= 10 && cjk >= latin) && !(latin >= 10 && latin > cjk)
  {
    if cjk >= 10 && cjk >= latin then "zh" else if latin >= 10 && latin > cjk then "en" else ""
  }

  /** A short text never gets a language. */
  lemma ShortTextHasNoLanguage(s: string)
    requires |s| < 10
    ensures Language(CjkCount(s), LatinCount(s)) == ""
  {
    CountsBounded(s);
  }

  lemma {:induction false} CountsBounded(s: string)
    ensures CjkCount(s) + LatinCount(s) <= |s|
  {
    if s != [] {
      CountsBounded(s[..|s| - 1]);
    }
  }

  /** detectLanguage. */
  method DetectLanguage(s: string) returns (r: string)
    ensures r == Language(CjkCount(s), LatinCount(s))
  {
    var cjk := 0;
    var latin := 0;
    var i := 0;
    while i < |s|
      invariant 0 <= i <= |s|
      invariant cjk == CjkCount(s[..i]) && latin == LatinCount(s[..i])
    {
      assert s[..i + 1][..i] == s[..i];
      var c := s[i];
      if IsCJK(c) {
        cjk := cjk + 1;
      } else if c as int <= 0xFF && (IsLetter(c) || IsDigit(c)) {
        latin := latin + 1;
      }
      i := i + 1;
    }
    assert s[..|s|] == s;
    r := Language(cjk, latin);
  }

  // ------------------------------------------------------------ chunks

  /** The chunk records for `parts`: one per part that is not blank once
      trimmed, indexed by its position among all parts. */
  function ChunksOf(parts: seq<string>, docVersionId: string, chunkId: (string, int) -> string,
                    hash: string -> string, now: int): (chunks: seq<DocChunk>)
    ensures |chunks| <= |parts|
    decreases |parts|
  {
    if parts == [] then []
    else
      var prev := ChunksOf(parts[..|parts| - 1], docVersionId, chunkId, hash, now);
      var i := |parts| - 1;
      var part := TrimSpace(parts[i]);
      if part == "" then prev
      else prev + [DocChunk(chunkId(docVersionId, i), i, part, |Tokens(part)|, hash(part),
                            Language(CjkCount(part), LatinCount(part)), now)]
  }

  /** Chunk `c` is the trimmed, non-blank text of the part at its index,
      with that text's token count, hash and language and the id of that
      index. */
  predicate SoundChunk(c: DocChunk, parts: seq<string>, docVersionId: string, chunkId: (string, int) -> string,
                       hash: string -> string, now: int)
  {
    0 <= c.chunkIndex < |parts| && c.content == TrimSpace(parts[c.chunkIndex]) && c.content != "" &&
    c.tokenCount == |Tokens(c.content)| && c.id == chunkId(docVersionId, c.chunkIndex) &&
    c.language == Language(CjkCount(c.content), LatinCount(c.content)) &&
    c.contentHash == hash(c.content) && c.createdAt == now
  }

  lemma {:induction false} ChunksOfSound(parts: seq<string>, docVersionId: string, chunkId: (string, int) -> string,
                                         hash: string -> string, now: int)
    ensures forall c :: c in ChunksOf(parts, docVersionId, chunkId, hash, now) ==>
      SoundChunk(c, parts, docVersionId, chunkId, hash, now)
    decreases |parts|
  {
    if parts != [] {
      var init := parts[..|parts| - 1];
      ChunksOfSound(init, docVersionId, chunkId, hash, now);
      forall c | c in ChunksOf(init, docVersionId, chunkId, hash, now)
        ensures SoundChunk(c, parts, docVersionId, chunkId, hash, now)
      {
        assert SoundChunk(c, init, docVersionId, chunkId, hash, now);
        assert parts[c.chunkIndex] == init[c.chunkIndex];
      }
    }
  }

  predicate Increasing(cs: seq<DocChunk>, n: int)
  {
    (forall k :: 0 <= k < |cs| ==> cs[k].chunkIndex < n) &&
    (forall a, b :: 0 <= a < b < |cs| ==> cs[a].chunkIndex < cs[b].chunkIndex)
  }

  /** Chunk indexes strictly increase. */
  lemma {:induction false} ChunksOfOrdered(parts: seq<string>, docVersionId: string, chunkId: (string, int) -> string,
                                           hash: string -> string, now: int)
    ensures Increasing(ChunksOf(parts, docVersionId, chunkId, hash, now), |parts|)
    decreases |parts|
  {
    if parts != [] {
      ChunksOfOrdered(parts[..|parts| - 1], docVersionId, chunkId, hash, now);
    }
  }

  predicate HasChunk(cs: seq<DocChunk>, i: int)
  {
    exists k :: 0 <= k < |cs| && cs[k].chunkIndex == i
  }

  /** Every part that is not blank once trimmed has its chunk. */
  lemma {:induction false} ChunksOfComplete(parts: seq<string>, docVersionId: string, chunkId: (string, int) -> string,
                                            hash: string -> string, now: int)
    ensures forall i :: 0 <= i < |parts| && TrimSpace(parts[i]) != "" ==>
      HasChunk(ChunksOf(parts, docVersionId, chunkId, hash, now), i)
    decreases |parts|
  {
    if parts != [] {
      var init := parts[..|parts| - 1];
      ChunksOfComplete(init, docVersionId, chunkId, hash, now);
      var prev := ChunksOf(init, docVersionId, chunkId, hash, now);
      var cs := ChunksOf(parts, docVersionId, chunkId, hash, now);
      forall i | 0 <= i < |parts| && TrimSpace(parts[i]) != ""
        ensures HasChunk(cs, i)
      {
        if i < |init| {
          assert init[i] == parts[i];
          var k :| 0 <= k < |prev| && prev[k].chunkIndex == i;
          assert cs[k] == prev[k];
        } else {
          assert cs[|cs| - 1].chunkIndex == i;
        }
      }
    }
  }

  /** buildChunks: the size is clamped to 1..8192 and the overlap to
      0..size-1 before splitting. */
  method BuildChunks(rawText: string, docVersionId: string, chunkSize: int, overlap: int,
                     chunkId: (string, int) -> string, hash: string -> string, now: int)
    returns (out: seq<DocChunk>)
    ensures var size := ClampInt(chunkSize, 1, MaxChunkSize);
      out == ChunksOf(SplitText(rawText, size, ClampInt(overlap, 0, size - 1)), docVersionId, chunkId, hash, now)
  {
    var size := ClampInt(chunkSize, 1, MaxChunkSize);
    var ov := ClampInt(overlap, 0, size - 1);
    var parts := SplitByTokens(rawText, size, ov);
    out := [];
    var i := 0;
    while i < |parts|
      invariant 0 <= i <= |parts|
      invariant out == ChunksOf(parts[..i], docVersionId, chunkId, hash, now)
    {
      assert parts[..i + 1][..i] == parts[..i];
      var part := TrimSpace(parts[i]);
      if part != "" {
        var tokens := TokenizeSpans(part);
        var language := DetectLanguage(part);
        out := out + [DocChunk(chunkId(docVersionId, i), i, part, |tokens|, hash(part), language, now)];
      }
      i := i + 1;
    }
    assert parts[..|parts|] == parts;
  }
}
