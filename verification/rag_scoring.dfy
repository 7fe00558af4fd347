/** Candidate scoring for retrieval (apps/server/internal/rag/biz/scoring.go):
    merging search hits per chunk, ordering and cutting them, the
    confidence of a ranking, lexical overlap between the question and a
    passage, and the blend of vector and text scores. Scores are float32 in
    the server and reals here. */
module Scoring {
  import opened Text

  datatype SearchResult = SearchResult(chunkId: string, documentId: string, documentVersionId: string,
                                       kbId: string, score: real)

  datatype ScoredChunk = ScoredChunk(result: SearchResult, vectorScore: real, textScore: real, score: real)

  function Id(c: ScoredChunk): string { c.result.chunkId }

  // ---------------------------------------------------------------------
  // rankAndFilter

  /** The byChunk map after the first loop over `items`: per non-empty
      chunk id, the item with the highest score, the earliest on a tie. */
  function Best(items: seq<ScoredChunk>): (m: map<string, ScoredChunk>)
    ensures forall id :: id in m ==> id != "" && Id(m[id]) == id && m[id] in items
    decreases |items|
  {
    if items == [] then map[]
    else
      var m := Best(items[..|items| - 1]);
      var x := items[|items| - 1];
      if Id(x) == "" then m
      else if Id(x) !in m || x.score > m[Id(x)].score then m[Id(x) := x]
      else m
  }

  /** The chunk ids in the order they are first met. Go ranges over the map
      in no fixed order; this model fixes the first-seen order. */
  function FirstSeen(items: seq<ScoredChunk>): (ids: seq<string>)
    decreases |items|
  {
    if items == [] then []
    else
      var ids := FirstSeen(items[..|items| - 1]);
      var x := items[|items| - 1];
      if Id(x) == "" || Id(x) in ids then ids else ids + [Id(x)]
  }

  /** The ids of FirstSeen are distinct and are exactly the keys of Best. */
  lemma {:induction false} FirstSeenKeys(items: seq<ScoredChunk>)
    ensures forall i, j :: 0 <= i < j < |FirstSeen(items)| ==> FirstSeen(items)[i] != FirstSeen(items)[j]
    ensures forall id :: id in FirstSeen(items) <==> id in Best(items)
    decreases |items|
  {
    if items != [] {
      FirstSeenKeys(items[..|items| - 1]);
    }
  }

  /** Best keeps, for each id, an item whose score no other item with that
      id beats. */
  lemma {:induction false} BestIsMaximal(items: seq<ScoredChunk>, k: int)
    requires 0 <= k < |items| && Id(items[k]) != ""
    ensures Id(items[k]) in Best(items)
    ensures items[k].score <= Best(items)[Id(items[k])].score
    decreases |items|
  {
    if k < |items| - 1 {
      BestIsMaximal(items[..|items| - 1], k);
    }
  }

  /** Scores never increase along the sequence. */
  predicate SortedDesc(s: seq<ScoredChunk>) {
    forall i :: 0 <= i < |s| - 1 ==> s[i].score >= s[i + 1].score
  }

  /** One step of a stable sort by descending score: `x`, which came
      earlier than everything in `s`, goes before the first item it does
      not score below. */
  function Insert(x: ScoredChunk, s: seq<ScoredChunk>): (r: seq<ScoredChunk>)
    ensures multiset(r) == multiset(s) + multiset{x}
    ensures |r| == |s| + 1
    ensures SortedDesc(s) ==> SortedDesc(r)
    ensures r[0] == x || (s != [] && r[0] == s[0])
  {
    if s == [] then [x]
    else if s[0].score <= x.score then [x] + s
    else
      assert s == [s[0]] + s[1..];
      [s[0]] + Insert(x, s[1..])
  }

  /** sort.SliceStable by descending score. */
  function SortDesc(s: seq<ScoredChunk>): (r: seq<ScoredChunk>)
    ensures multiset(r) == multiset(s)
    ensures |r| == |s|
    ensures SortedDesc(r)
  {
    if s == [] then []
    else
      assert s == [s[0]] + s[1..];
      Insert(s[0], SortDesc(s[1..]))
  }

  lemma {:induction false} SortedPairwise(s: seq<ScoredChunk>, i: int, j: int)
    requires SortedDesc(s) && 0 <= i <= j < |s|
    ensures s[i].score >= s[j].score
    decreases j - i
  {
    if i < j {
      SortedPairwise(s, i + 1, j);
    }
  }

  /** The merged values of the map, in FirstSeen order. */
  function Merged(items: seq<ScoredChunk>): (r: seq<ScoredChunk>)
    ensures |r| == |FirstSeen(items)|
    ensures forall k :: 0 <= k < |r| ==> FirstSeen(items)[k] in Best(items) && r[k] == Best(items)[FirstSeen(items)[k]]
  {
    FirstSeenKeys(items);
    var ids := FirstSeen(items);
    var m := Best(items);
    seq(|ids|, k requires 0 <= k < |ids| => m[ids[k]])
  }

  /** What rankAndFilter returns. */
  function Ranked(items: seq<ScoredChunk>, topK: int): seq<ScoredChunk> {
    var sorted := SortDesc(Merged(items));
    if topK > 0 && |sorted| > topK then sorted[..topK] else sorted
  }

  /** rankAndFilter: nothing for no items; otherwise the per-chunk best
      items, highest score first, cut to topK when topK is positive. */
  method RankAndFilter(items: seq<ScoredChunk>, topK: int) returns (merged: seq<ScoredChunk>)
    ensures merged == Ranked(items, topK)
    ensures items == [] ==> merged == []
  {
    if |items| == 0 {
      return [];
    }
    var byChunk: map<string, ScoredChunk> := map[];
    var order: seq<string> := [];
    var i := 0;
    while i < |items|
      invariant 0 <= i <= |items|
      invariant byChunk == Best(items[..i]) && order == FirstSeen(items[..i])
    {
      FirstSeenKeys(items[..i]);
      var item := items[i];
      assert items[..i + 1][..i] == items[..i];
      if Id(item) != "" {
        if Id(item) !in byChunk {
          byChunk := byChunk[Id(item) := item];
          order := order + [Id(item)];
        } else if item.score > byChunk[Id(item)].score {
          byChunk := byChunk[Id(item) := item];
        }
      }
      i := i + 1;
    }
    assert items[..i] == items;
    FirstSeenKeys(items);
    merged := seq(|order|, k requires 0 <= k < |order| => byChunk[order[k]]);
    assert merged == Merged(items);
    merged := SortDesc(merged);
    if topK > 0 && |merged| > topK {
      merged := merged[..topK];
    }
  }

  /** The ranking holds each chunk at most once, highest score first, every
      entry the best-scoring item of its chunk; it is cut to topK exactly
      when more chunks were found. */
  lemma RankedShape(items: seq<ScoredChunk>, topK: int)
    ensures var r := Ranked(items, topK);
      && SortedDesc(r)
      && (forall i, j :: 0 <= i < j < |r| ==> Id(r[i]) != Id(r[j]))
      && (forall i :: 0 <= i < |r| ==> Id(r[i]) != "" && r[i] in items && Id(r[i]) in Best(items) && Best(items)[Id(r[i])] == r[i])
      && |r| == (if topK > 0 && |FirstSeen(items)| > topK then topK else |FirstSeen(items)|)
  {
    var m := Merged(items);
    var sorted := SortDesc(m);
    FirstSeenKeys(items);
    var r := Ranked(items, topK);
    assert forall x :: x in sorted <==> x in m by {
      forall x ensures x in sorted <==> x in m {
        assert x in sorted <==> x in multiset(sorted);
      }
    }
    forall i | 0 <= i < |r| ensures Id(r[i]) != "" && r[i] in items && Id(r[i]) in Best(items) && Best(items)[Id(r[i])] == r[i] {
      assert r[i] in sorted;
      assert r[i] in m;
    }
    forall i, j | 0 <= i < j < |r| ensures Id(r[i]) != Id(r[j]) {
      UniqueIds(items, sorted, i, j);
    }
  }

  /** Two positions of a permutation of Merged hold different chunks. */
  lemma UniqueIds(items: seq<ScoredChunk>, sorted: seq<ScoredChunk>, i: int, j: int)
    requires multiset(sorted) == multiset(Merged(items))
    requires 0 <= i < j < |sorted|
    ensures Id(sorted[i]) != Id(sorted[j])
  {
    var m := Merged(items);
    FirstSeenKeys(items);
    var ids := FirstSeen(items);
    if Id(sorted[i]) == Id(sorted[j]) {
      assert sorted[i] in multiset(m) && sorted[j] in multiset(m);
      var a :| 0 <= a < |m| && m[a] == sorted[i];
      var b :| 0 <= b < |m| && m[b] == sorted[j];
      assert ids[a] == Id(m[a]) && ids[b] == Id(m[b]);
      assert a == b;
      assert sorted[i] == sorted[j];
      var x := sorted[i];
      assert multiset(sorted)[x] >= 2 by {
        assert sorted == sorted[..i] + [x] + sorted[i + 1..];
        assert x in sorted[i + 1..] by { assert sorted[i + 1..][j - i - 1] == x; }
      }
      MultiplicityOne(m, x);
      assert false;
    }
  }

  /** Merged holds no item twice, as its ids are distinct. */
  lemma MultiplicityOne(m: seq<ScoredChunk>, x: ScoredChunk)
    requires forall a, b :: 0 <= a < b < |m| ==> Id(m[a]) != Id(m[b])
    ensures multiset(m)[x] <= 1
  {
    if m != [] {
      MultiplicityOne(m[1..], x);
      assert m == [m[0]] + m[1..];
      if m[0] == x {
        assert x !in m[1..] by {
          forall b | 0 <= b < |m[1..]| ensures m[1..][b] != x {
            assert Id(m[0]) != Id(m[b + 1]);
          }
        }
      }
    }
  }

  /** Cutting to topK keeps the best: any chunk left out scores no higher
      than anything kept. */
  lemma RankedKeepsTop(items: seq<ScoredChunk>, topK: int, k: int)
    requires 0 <= k < |items| && Id(items[k]) != ""
    ensures var r := Ranked(items, topK);
      (exists i :: 0 <= i < |r| && Id(r[i]) == Id(items[k]))
      || (forall i :: 0 <= i < |r| ==> r[i].score >= items[k].score)
  {
    var m := Merged(items);
    var sorted := SortDesc(m);
    FirstSeenKeys(items);
    BestIsMaximal(items, k);
    var id := Id(items[k]);
    var best := Best(items)[id];
    var a :| 0 <= a < |FirstSeen(items)| && FirstSeen(items)[a] == id;
    assert m[a] == best;
    assert best in multiset(sorted);
    var p :| 0 <= p < |sorted| && sorted[p] == best;
    var r := Ranked(items, topK);
    if p < |r| {
      assert r[p] == sorted[p];
    } else {
      forall i | 0 <= i < |r| ensures r[i].score >= items[k].score {
        SortedPairwise(sorted, i, p);
      }
    }
  }

  // ---------------------------------------------------------------------
  // computeConfidence

  function SumScores(s: seq<ScoredChunk>): real {
    if s == [] then 0.0 else SumScores(s[..|s| - 1]) + s[|s| - 1].score
  }

  function Clamp01(x: real): (r: real)
    ensures 0.0 <= r <= 1.0
    ensures 0.0 <= x <= 1.0 ==> r == x
  {
    if x < 0.0 then 0.0 else if x > 1.0 then 1.0 else x
  }

  /** The confidence of a ranking: 0.8 times the mean score of the first
      three (or fewer) entries plus 0.2 times the coverage of topK,
      clamped into [0, 1]. */
  function Confidence(ranked: seq<ScoredChunk>, topK: int): (conf: real)
    ensures 0.0 <= conf <= 1.0
    ensures ranked == [] ==> conf == 0.0
  {
    if ranked == [] then 0.0
    else
      var limit := if |ranked| < 3 then |ranked| else 3;
      var avg := SumScores(ranked[..limit]) / limit as real;
      var coverage := if topK > 0 then (if |ranked| as real / topK as real > 1.0 then 1.0 else |ranked| as real / topK as real) else 1.0;
      Clamp01(0.8 * avg + 0.2 * coverage)
  }

  /** computeConfidence: the summing loop over the first entries. */
  method ComputeConfidence(ranked: seq<ScoredChunk>, topK: int) returns (conf: real)
    ensures conf == Confidence(ranked, topK)
  {
    if |ranked| == 0 {
      return 0.0;
    }
    var limit := 3;
    if |ranked| < limit {
      limit := |ranked|;
    }
    var sum := 0.0;
    var i := 0;
    while i < limit
      invariant 0 <= i <= limit
      invariant sum == SumScores(ranked[..i])
    {
      assert ranked[..i + 1][..i] == ranked[..i];
      sum := sum + ranked[i].score;
      i := i + 1;
    }
    var avg := sum / limit as real;
    var coverage := 1.0;
    if topK > 0 {
      coverage := |ranked| as real / topK as real;
      if coverage > 1.0 {
        coverage := 1.0;
      }
    }
    conf := 0.8 * avg + 0.2 * coverage;
    if conf < 0.0 {
      return 0.0;
    }
    if conf > 1.0 {
      return 1.0;
    }
  }

  lemma {:induction false} SumMonotone(a: seq<ScoredChunk>, b: seq<ScoredChunk>)
    requires |a| == |b|
    requires forall i :: 0 <= i < |a| ==> a[i].score <= b[i].score
    ensures SumScores(a) <= SumScores(b)
    decreases |a|
  {
    if a != [] {
      SumMonotone(a[..|a| - 1], b[..|b| - 1]);
    }
  }

  /** Raising scores entry by entry never lowers the confidence. */
  lemma ConfidenceMonotone(a: seq<ScoredChunk>, b: seq<ScoredChunk>, topK: int)
    requires |a| == |b|
    requires forall i :: 0 <= i < |a| ==> a[i].score <= b[i].score
    ensures Confidence(a, topK) <= Confidence(b, topK)
  {
    if a != [] {
      var limit := if |a| < 3 then |a| else 3;
      SumMonotone(a[..limit], b[..limit]);
      var sa := SumScores(a[..limit]);
      var sb := SumScores(b[..limit]);
      assert sa / limit as real <= sb / limit as real;
    }
  }

  // ---------------------------------------------------------------------
  // combineScores, overlapScore, tokenSet

  /** combineScores: a weight at or below 0 keeps the vector score, at or
      above 1 takes the text score, and otherwise blends them linearly. */
  function CombineScores(vectorScore: real, textScore: real, weight: real): (r: real)
    ensures weight <= 0.0 ==> r == vectorScore
    ensures weight >= 1.0 ==> r == textScore
    ensures (vectorScore <= r <= textScore) || (textScore <= r <= vectorScore)
  {
    if weight <= 0.0 then vectorScore
    else if weight >= 1.0 then textScore
    else
      var r := vectorScore * (1.0 - weight) + textScore * weight;
      BlendBetween(vectorScore, textScore, weight, r);
      r
  }

  lemma BlendBetween(v: real, t: real, w: real, r: real)
    requires 0.0 < w < 1.0 && r == v * (1.0 - w) + t * w
    ensures (v <= r <= t) || (t <= r <= v)
  {
    if v <= t {
      BlendUp(v, t, w, r);
    } else {
      BlendDown(v, t, w, r);
    }
  }

  lemma BlendUp(v: real, t: real, w: real, r: real)
    requires 0.0 < w < 1.0 && v <= t && r == v * (1.0 - w) + t * w
    ensures v <= r <= t
  {
    var a := v * (1.0 - w);
    var b := t * w;
    var vw := v * w;
    var p := (t - v) * w;
    ScaleDown(t - v, w, p);
    Distrib(t, v, w, p, b, vw);
    Distrib(1.0, w, v, a, v, vw);
  }

  lemma BlendDown(v: real, t: real, w: real, r: real)
    requires 0.0 < w < 1.0 && t < v && r == v * (1.0 - w) + t * w
    ensures t <= r <= v
  {
    var a := v * (1.0 - w);
    var tw := t * w;
    var q := (v - t) * (1.0 - w);
    var tq := t * (1.0 - w);
    ScaleDown(v - t, 1.0 - w, q);
    Distrib(v, t, 1.0 - w, q, a, tq);
    Distrib(1.0, w, t, tq, t, tw);
  }

  /** Products are named so that the solver only sees linear facts. */
  lemma ScaleDown(x: real, w: real, p: real)
    requires 0.0 <= x && 0.0 < w < 1.0 && p == x * w
    ensures 0.0 <= p <= x
  {
    assert x - x * w == x * (1.0 - w);
  }

  lemma Distrib(a: real, b: real, w: real, p: real, q: real, s: real)
    requires p == (a - b) * w && q == a * w && s == b * w
    ensures p == q - s
  {
  }

  function MaxReal(a: real, b: real): (r: real)
    ensures r >= a && r >= b && (r == a || r == b)
  {
    if a >= b then a else b
  }

  predicate NotWordChar(c: char) { !IsWordChar(c) }

  /** The loop of tokenSet over the fields: tokens shorter than two bytes
      are skipped, and the loop stops once `left` more tokens, repeats
      included, have been taken. */
  function Accept(fields: seq<string>, left: int): (tokens: set<string>)
    requires left >= 1
    decreases |fields|
  {
    if fields == [] then {}
    else if ByteLen(fields[0]) < 2 then Accept(fields[1..], left)
    else if left == 1 then {fields[0]}
    else {fields[0]} + Accept(fields[1..], left - 1)
  }

  /** Only fields of two bytes or more are taken. */
  lemma {:induction false} AcceptMembers(fields: seq<string>, left: int)
    requires left >= 1
    ensures forall t :: t in Accept(fields, left) ==> ByteLen(t) >= 2 && t in fields
    decreases |fields|
  {
    if fields == [] {
    } else if ByteLen(fields[0]) < 2 {
      AcceptMembers(fields[1..], left);
    } else if left > 1 {
      AcceptMembers(fields[1..], left - 1);
    }
  }

  /** No more than `left` tokens are taken. */
  lemma {:induction false} AcceptSize(fields: seq<string>, left: int)
    requires left >= 1
    ensures |Accept(fields, left)| <= left
    decreases |fields|
  {
    if fields == [] {
    } else if ByteLen(fields[0]) < 2 {
      AcceptSize(fields[1..], left);
    } else if left > 1 {
      AcceptSize(fields[1..], left - 1);
      var rest := Accept(fields[1..], left - 1);
      assert |{fields[0]} + rest| <= 1 + |rest|;
    }
  }

  /** The fields tokenSet scans: the lower-cased text split on everything
      that is not a letter or a number. */
  function Words(text: string): (words: seq<string>)
    ensures forall i, j :: 0 <= i < |words| && 0 <= j < |words[i]| ==> IsWordChar(words[i][j])
  {
    FieldsBy(Lower(text), NotWordChar)
  }

  /** tokenSet: a limit at or below 0 means 64. */
  function TokenSet(text: string, limit: int): (tokens: set<string>)
    ensures forall t :: t in tokens ==> ByteLen(t) >= 2 && t in Words(text)
    ensures |tokens| <= (if limit <= 0 then 64 else limit)
  {
    AcceptSize(Words(text), if limit <= 0 then 64 else limit);
    AcceptMembers(Words(text), if limit <= 0 then 64 else limit);
    Accept(Words(text), if limit <= 0 then 64 else limit)
  }

  /** The counter loop of tokenSet. */
  method BuildTokenSet(text: string, limit: int) returns (out: set<string>)
    ensures out == TokenSet(text, limit)
  {
    var lim := limit;
    if lim <= 0 {
      lim := 64;
    }
    out := TakeTokens(Words(text), lim);
  }

  method TakeTokens(fields: seq<string>, lim: int) returns (out: set<string>)
    requires lim >= 1
    ensures out == Accept(fields, lim)
  {
    out := {};
    var count := 0;
    var i := 0;
    while i < |fields|
      invariant 0 <= i <= |fields| && 0 <= count < lim
      invariant out + Accept(fields[i..], lim - count) == Accept(fields, lim)
    {
      var token := fields[i];
      AcceptStep(fields, i, lim - count);
      if ByteLen(token) < 2 {
        i := i + 1;
        continue;
      }
      ghost var before := out;
      out := out + {token};
      count := count + 1;
      if count >= lim {
        return;
      }
      assert before + ({token} + Accept(fields[i + 1..], lim - count)) == out + Accept(fields[i + 1..], lim - count);
      i := i + 1;
    }
    assert fields[i..] == [];
  }

  /** One step of the scan at position i. */
  lemma AcceptStep(fields: seq<string>, i: int, left: int)
    requires 0 <= i < |fields| && left >= 1
    ensures ByteLen(fields[i]) < 2 ==> Accept(fields[i..], left) == Accept(fields[i + 1..], left)
    ensures ByteLen(fields[i]) >= 2 && left == 1 ==> Accept(fields[i..], left) == {fields[i]}
    ensures ByteLen(fields[i]) >= 2 && left > 1 ==>
      Accept(fields[i..], left) == {fields[i]} + Accept(fields[i + 1..], left - 1)
  {
    assert fields[i..][0] == fields[i];
    assert fields[i..][1..] == fields[i + 1..];
  }

  /** A token long enough is taken, and the rest is scanned for one fewer. */
  lemma AcceptTake(fields: seq<string>, left: int)
    requires fields != [] && ByteLen(fields[0]) >= 2 && left >= 1
    ensures left == 1 ==> Accept(fields, left) == {fields[0]}
    ensures left > 1 ==> Accept(fields, left) == {fields[0]} + Accept(fields[1..], left - 1)
  {
  }

  /** Taking more tokens never takes fewer. */
  lemma {:induction false} AcceptMonotone(fields: seq<string>, a: int, b: int)
    requires 1 <= a <= b
    ensures Accept(fields, a) <= Accept(fields, b)
    decreases |fields|
  {
    if fields == [] {
    } else if ByteLen(fields[0]) < 2 {
      AcceptMonotone(fields[1..], a, b);
    } else {
      AcceptTake(fields, a);
      AcceptTake(fields, b);
      if a > 1 {
        AcceptMonotone(fields[1..], a - 1, b - 1);
      }
    }
  }

  /** overlapScore: the share of the question's tokens (at most 64) that
      occur among the passage's tokens (at most 256); 0 when either has
      none. */
  function OverlapScore(question: string, content: string): (r: real)
    ensures 0.0 <= r <= 1.0
    ensures TokenSet(question, 64) == {} || TokenSet(content, 256) == {} ==> r == 0.0
  {
    Share(TokenSet(question, 64), TokenSet(content, 256))
  }

  /** The part of `q` found in `c`, as a fraction of `q`. */
  function Share(q: set<string>, c: set<string>): (r: real)
    ensures 0.0 <= r <= 1.0
    ensures q == {} || c == {} ==> r == 0.0
    ensures q != {} && q <= c ==> r == 1.0
  {
    if |q| == 0 || |c| == 0 then 0.0
    else
      SubsetCard(q * c, q);
      assert q <= c ==> q * c == q;
      Fraction(|q * c|, |q|)
  }

  function Fraction(n: nat, d: nat): (r: real)
    requires 0 < d && n <= d
    ensures 0.0 <= r <= 1.0
    ensures n == d ==> r == 1.0
  {
    assert n as real <= d as real;
    n as real / d as real
  }

  lemma SubsetCard<T>(a: set<T>, b: set<T>)
    requires a <= b
    ensures |a| <= |b|
  {
    assert b == a + (b - a);
  }

  /** A passage that is the question itself matches every question token. */
  lemma OverlapOfItself(question: string)
    requires TokenSet(question, 64) != {}
    ensures OverlapScore(question, question) == 1.0
  {
    AcceptMonotone(Words(question), 64, 256);
  }

  /** deriveRetrieveThreshold: the minimum search score is a fifth of the
      confidence threshold, at most 0.2, and 0 when the threshold is not
      positive. */
  function DeriveRetrieveThreshold(confidenceThreshold: real): (r: real)
    ensures confidenceThreshold <= 0.0 ==> r == 0.0
    ensures confidenceThreshold > 0.0 ==> 0.0 < r <= 0.2 && r <= confidenceThreshold * 0.2
    ensures confidenceThreshold >= 1.0 ==> r == 0.2
    ensures 0.0 < confidenceThreshold <= 1.0 ==> r == confidenceThreshold * 0.2
  {
    if confidenceThreshold <= 0.0 then 0.0
    else if confidenceThreshold * 0.2 > 0.2 then 0.2
    else confidenceThreshold * 0.2
  }
}
