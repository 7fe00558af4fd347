/** The second ordering of the candidates
    (apps/server/internal/rag/biz/steps_rerank.go): every candidate is
    rescored with the lexical overlap of its passage and section, the
    confidence of the ranking is assessed, and when it is too low an LLM
    acting as a cross-encoder may reorder the candidates by naming their
    chunk ids. */
module Rerank {
  import opened Wrappers
  import opened Text
  import opened Scoring
  import opened Prompt

  // ---------------------------------------------------------------------
  // sanitizeStringList

  /** The strings of the list, trimmed, without the blank ones. */
  function Sanitize(input: seq<string>): seq<string>
    decreases |input|
  {
    if input == [] then []
    else
      var q := TrimSpace(input[0]);
      (if q == "" then [] else [q]) + Sanitize(input[1..])
  }

  /** sanitizeStringList: the appending loop. */
  method SanitizeStringList(input: seq<string>) returns (out: seq<string>)
    ensures out == Sanitize(input)
  {
    out := [];
    var i := 0;
    assert input[i..] == input;
    while i < |input|
      invariant 0 <= i <= |input|
      invariant out + Sanitize(input[i..]) == Sanitize(input)
    {
      assert input[i..][1..] == input[i + 1..];
      var q := TrimSpace(input[i]);
      if q != "" {
        assert out + ([q] + Sanitize(input[i + 1..])) == (out + [q]) + Sanitize(input[i + 1..]);
        out := out + [q];
      } else {
        assert [] + Sanitize(input[i + 1..]) == Sanitize(input[i + 1..]);
      }
      i := i + 1;
    }
    assert input[i..] == [];
    assert out + [] == out;
  }

  /** Every string of the list is trimmed and not blank. */
  predicate Clean(list: seq<string>) {
    forall i :: 0 <= i < |list| ==> list[i] != "" && TrimSpace(list[i]) == list[i]
  }

  /** Sanitizing leaves only trimmed, non-blank strings, never more than it
      was given. */
  lemma {:induction false} SanitizeShape(input: seq<string>)
    ensures Clean(Sanitize(input))
    ensures |Sanitize(input)| <= |input|
    decreases |input|
  {
    if input != [] {
      SanitizeShape(input[1..]);
      var q := TrimSpace(input[0]);
      var rest := Sanitize(input[1..]);
      if q != "" {
        TrimSpaceIdempotent(input[0]);
        var r := [q] + rest;
        forall i | 0 <= i < |r| ensures r[i] != "" && TrimSpace(r[i]) == r[i] {
          if i > 0 {
            assert r[i] == rest[i - 1];
          }
        }
      } else {
        assert Sanitize(input) == rest;
      }
    }
  }

  /** Sanitizing works string by string: the result for two lists one
      after the other is the two results one after the other. */
  lemma {:induction false} SanitizeAppend(a: seq<string>, b: seq<string>)
    ensures Sanitize(a + b) == Sanitize(a) + Sanitize(b)
    decreases |a|
  {
    if a != [] {
      assert (a + b)[0] == a[0];
      assert (a + b)[1..] == a[1..] + b;
      SanitizeAppend(a[1..], b);
    } else {
      assert a + b == b;
    }
  }

  /** A clean list is its own sanitized form, so sanitizing twice is
      sanitizing once. */
  lemma {:induction false} SanitizeFixed(list: seq<string>)
    requires Clean(list)
    ensures Sanitize(list) == list
    decreases |list|
  {
    if list != [] {
      assert Clean(list[1..]) by {
        forall i | 0 <= i < |list[1..]| ensures list[1..][i] != "" && TrimSpace(list[1..][i]) == list[1..][i] {
          assert list[1..][i] == list[i + 1];
        }
      }
      SanitizeFixed(list[1..]);
      assert [list[0]] + list[1..] == list;
    }
  }

  /** Every non-blank string of the input is kept, trimmed. */
  lemma {:induction false} SanitizeKeeps(input: seq<string>, k: int)
    requires 0 <= k < |input| && TrimSpace(input[k]) != ""
    ensures TrimSpace(input[k]) in Sanitize(input)
    decreases |input|
  {
    if k > 0 {
      SanitizeKeeps(input[1..], k - 1);
      assert input[1..][k - 1] == input[k];
    }
  }

  /** A character no input string holds is in no output string. */
  lemma {:induction false} SanitizeKeepsOut(input: seq<string>, c: char)
    requires forall i :: 0 <= i < |input| ==> c !in input[i]
    ensures forall i :: 0 <= i < |Sanitize(input)| ==> c !in Sanitize(input)[i]
    decreases |input|
  {
    if input != [] {
      TrimSpaceKeepsOut(input[0], c);
      assert forall i :: 0 <= i < |input[1..]| ==> c !in input[1..][i] by {
        forall i | 0 <= i < |input[1..]| ensures c !in input[1..][i] {
          assert input[1..][i] == input[i + 1];
        }
      }
      SanitizeKeepsOut(input[1..], c);
    }
  }

  // ---------------------------------------------------------------------
  // parseRerankOrder

  /** The characters the plain-text fallback splits on. */
  predicate OrderSep(c: char) { c == '\n' || c == '\r' || c == ',' || c == ';' || c == ' ' }

  /** Go `strings.Index` for one character: the first position, or -1. */
  function IndexOf(s: string, c: char): (i: int)
    ensures -1 <= i < |s|
    ensures i >= 0 ==> s[i] == c && forall k :: 0 <= k < i ==> s[k] != c
    ensures i == -1 ==> c !in s
    decreases |s|
  {
    if s == [] then -1
    else if s[0] == c then 0
    else
      var j := IndexOf(s[1..], c);
      if j < 0 then -1 else j + 1
  }

  /** Go `strings.LastIndex` for one character: the last position, or -1. */
  function LastIndexOf(s: string, c: char): (i: int)
    ensures -1 <= i < |s|
    ensures i >= 0 ==> s[i] == c && forall k :: i < k < |s| ==> s[k] != c
    ensures i == -1 ==> c !in s
    decreases |s|
  {
    if s == [] then -1
    else if s[|s| - 1] == c then |s| - 1
    else LastIndexOf(s[..|s| - 1], c)
  }

  /** parseRerankOrder. The JSON decoder of a string array is the parameter
      `decode`, None when the text is not such an array: the whole text is
      tried first, then the part from the first `[` to the last `]`, and
      otherwise the text is split on newlines, commas, semicolons and
      spaces. */
  function ParseRerankOrder(text: string, decode: string -> Option<seq<string>>): (order: seq<string>)
    ensures Clean(order)
    ensures TrimSpace(text) == "" ==> order == []
  {
    var t := TrimSpace(text);
    if t == "" then []
    else
      var start := IndexOf(t, '[');
      var end := LastIndexOf(t, ']');
      var list :=
        if decode(t).Some? then decode(t).value
        else if start >= 0 && end > start && decode(t[start..end + 1]).Some? then decode(t[start..end + 1]).value
        else FieldsBy(t, OrderSep);
      SanitizeShape(list);
      Sanitize(list)
  }

  /** When neither decoding succeeds, no chunk id of the order holds a
      separator character. */
  lemma ParseFallbackSplits(text: string, decode: string -> Option<seq<string>>, c: char)
    requires OrderSep(c)
    requires forall s :: decode(s).None?
    ensures forall i :: 0 <= i < |ParseRerankOrder(text, decode)| ==> c !in ParseRerankOrder(text, decode)[i]
  {
    var t := TrimSpace(text);
    if t != "" {
      var fields := FieldsBy(t, OrderSep);
      assert forall i :: 0 <= i < |fields| ==> c !in fields[i];
      SanitizeKeepsOut(fields, c);
    }
  }

  /** FieldsFrom reads a separator-free word into the open field. */
  lemma {:induction false} FieldsWord(w: string, rest: string, sep: char -> bool, cur: string)
    requires forall j :: 0 <= j < |cur| ==> !sep(cur[j])
    requires forall j :: 0 <= j < |w| ==> !sep(w[j])
    ensures FieldsFrom(w + rest, sep, cur) == FieldsFrom(rest, sep, cur + w)
    decreases |w|
  {
    if w != [] {
      assert (w + rest)[0] == w[0];
      assert (w + rest)[1..] == w[1..] + rest;
      FieldsWord(w[1..], rest, sep, cur + [w[0]]);
      assert cur + [w[0]] + w[1..] == cur + w;
    } else {
      assert w + rest == rest;
      assert cur + w == cur;
    }
  }

  /** Splitting a comma-joined list of separator-free, non-empty words on
      the fallback separators gives the words back. */
  lemma {:induction false} FieldsOfJoin(ids: seq<string>)
    requires forall i :: 0 <= i < |ids| ==> ids[i] != ""
    requires forall i, j :: 0 <= i < |ids| && 0 <= j < |ids[i]| ==> !OrderSep(ids[i][j])
    ensures FieldsBy(Join(ids, ","), OrderSep) == ids
    decreases |ids|
  {
    if |ids| == 1 {
      FieldsWord(ids[0], [], OrderSep, []);
      assert ids[0] + [] == ids[0];
      assert [] + ids[0] == ids[0];
    } else if |ids| > 1 {
      var tail := Join(ids[1..], ",");
      FieldsOfJoin(ids[1..]);
      assert Join(ids, ",") == ids[0] + ([','] + tail);
      FieldsWord(ids[0], [','] + tail, OrderSep, []);
      assert [] + ids[0] == ids[0];
      assert ([','] + tail)[1..] == tail;
      assert [ids[0]] + ids[1..] == ids;
    }
  }

  /** The first and last characters of a join of non-empty parts are those
      of its first and last parts. */
  lemma {:induction false} JoinEnds(ids: seq<string>)
    requires |ids| >= 1 && forall i :: 0 <= i < |ids| ==> ids[i] != ""
    ensures |Join(ids, ",")| > 0
    ensures Join(ids, ",")[0] == ids[0][0]
    ensures Join(ids, ",")[|Join(ids, ",")| - 1] == ids[|ids| - 1][|ids[|ids| - 1]| - 1]
    decreases |ids|
  {
    if |ids| > 1 {
      JoinEnds(ids[1..]);
    }
  }

  /** A reply listing chunk ids separated by commas, which is not a JSON
      array, is read back as exactly those ids. */
  lemma ParseCommaList(ids: seq<string>, decode: string -> Option<seq<string>>)
    requires |ids| >= 1 && Clean(ids)
    requires forall i, j :: 0 <= i < |ids| && 0 <= j < |ids[i]| ==> !OrderSep(ids[i][j]) && ids[i][j] != '['
    requires decode(Join(ids, ",")).None?
    ensures ParseRerankOrder(Join(ids, ","), decode) == ids
  {
    var t := Join(ids, ",");
    JoinEnds(ids);
    TrimSpaceEnds(ids[0]);
    TrimSpaceEnds(ids[|ids| - 1]);
    TrimSpaceUntouched(t);
    JoinKeepsOut(ids, ",", '[');
    assert IndexOf(t, '[') == -1;
    FieldsOfJoin(ids);
    SanitizeFixed(ids);
  }

  // ---------------------------------------------------------------------
  // applyRerankOrder

  /** No two candidates share a chunk id. */
  predicate DistinctIds(s: seq<ScoredChunk>) {
    forall i, j :: 0 <= i < j < |s| ==> Id(s[i]) != Id(s[j])
  }

  /** Every entry of the map is filed under its own chunk id. */
  predicate Consistent(byId: map<string, ScoredChunk>) {
    forall id :: id in byId ==> Id(byId[id]) == id
  }

  /** byID: every candidate by chunk id, the later one on a repeated id. */
  function ById(ranked: seq<ScoredChunk>): (m: map<string, ScoredChunk>)
    ensures Consistent(m)
    ensures forall id :: id in m ==> m[id] in ranked
    ensures forall x :: x in ranked ==> Id(x) in m
    decreases |ranked|
  {
    if ranked == [] then map[]
    else
      var x := ranked[|ranked| - 1];
      var m := ById(ranked[..|ranked| - 1]);
      assert forall y :: y in ranked ==> y in ranked[..|ranked| - 1] || y == x;
      m[Id(x) := x]
  }

  /** With distinct ids, each candidate is the one filed under its id. */
  lemma ByIdDistinct(ranked: seq<ScoredChunk>, k: int)
    requires DistinctIds(ranked) && 0 <= k < |ranked|
    ensures ById(ranked)[Id(ranked[k])] == ranked[k]
  {
    var m := ById(ranked);
    var y := m[Id(ranked[k])];
    var p :| 0 <= p < |ranked| && ranked[p] == y;
    assert Id(ranked[p]) == Id(ranked[k]);
  }

  /** The candidates whose chunk id is not in `seen`, in ranked order. */
  function Remaining(ranked: seq<ScoredChunk>, seen: set<string>): (r: seq<ScoredChunk>)
    ensures |r| <= |ranked|
    decreases |ranked|
  {
    if ranked == [] then []
    else (if Id(ranked[0]) in seen then [] else [ranked[0]]) + Remaining(ranked[1..], seen)
  }

  /** The first loop of applyRerankOrder as written: every named id found
      among the candidates contributes its candidate, once per mention. */
  function NamedAsWritten(order: seq<string>, byId: map<string, ScoredChunk>): seq<ScoredChunk>
    decreases |order|
  {
    if order == [] then []
    else
      var id := TrimSpace(order[0]);
      (if id in byId then [byId[id]] else []) + NamedAsWritten(order[1..], byId)
  }

  /** The `seen` set after that loop: the named ids found among the
      candidates. */
  function NamedIds(order: seq<string>, byId: map<string, ScoredChunk>): set<string>
    decreases |order|
  {
    if order == [] then {}
    else
      var id := TrimSpace(order[0]);
      (if id in byId then {id} else {}) + NamedIds(order[1..], byId)
  }

  /** applyRerankOrder as written: nothing changes for an empty order;
      otherwise the named candidates come first, then the others in their
      ranked order. */
  function ApplyRerankOrderAsWritten(order: seq<string>, ranked: seq<ScoredChunk>): seq<ScoredChunk> {
    if order == [] then ranked
    else
      var byId := ById(ranked);
      NamedAsWritten(order, byId) + Remaining(ranked, NamedIds(order, byId))
  }

  /** A chunk id named twice puts its candidate in the ranking twice: two
      candidates become three. */
  lemma RepeatedIdDuplicates(a: ScoredChunk, b: ScoredChunk)
    requires Id(a) == "a" && Id(b) == "b"
    ensures ApplyRerankOrderAsWritten(["a", "a"], [a, b]) == [a, a, b]
    ensures |ApplyRerankOrderAsWritten(["a", "a"], [a, b])| == 3
  {
    var m := ById([a, b]);
    assert [a, b][..1] == [a];
    assert [a][..0] == [];
    assert m == map["a" := a, "b" := b];
    assert TrimSpace("a") == "a" by {
      TrimSpaceUntouched("a");
    }
    assert ["a", "a"][1..] == ["a"];
    assert ["a"][1..] == [];
    assert NamedAsWritten(["a", "a"], m) == [a, a];
    assert NamedIds(["a", "a"], m) == {"a"};
    assert [a, b][1..] == [b];
    assert [b][1..] == [];
    assert Remaining([a, b], {"a"}) == [b];
  }

  /** The named candidates and the final `seen` set. */
  datatype Named = Named(items: seq<ScoredChunk>, seen: set<string>)

  /** The first loop of applyRerankOrder, skipping an id already taken. */
  function NamedFrom(order: seq<string>, byId: map<string, ScoredChunk>, seen: set<string>): (n: Named)
    ensures seen <= n.seen
    decreases |order|
  {
    if order == [] then Named([], seen)
    else
      var id := TrimSpace(order[0]);
      if id !in byId || id in seen then NamedFrom(order[1..], byId, seen)
      else
        var rest := NamedFrom(order[1..], byId, seen + {id});
        Named([byId[id]] + rest.items, rest.seen)
  }

  /** applyRerankOrder with each chunk id taken at most once: nothing
      changes for an empty order; otherwise the named candidates come
      first, in the order named, then the others in their ranked order. */
  function ApplyRerankOrder(order: seq<string>, ranked: seq<ScoredChunk>): seq<ScoredChunk> {
    if order == [] then ranked
    else
      var n := NamedFrom(order, ById(ranked), {});
      n.items + Remaining(ranked, n.seen)
  }

  /** applyRerankOrder: the map by id, the named candidates with their
      `seen` set, and the rest. */
  method ApplyRerankOrderLoop(order: seq<string>, ranked: seq<ScoredChunk>) returns (out: seq<ScoredChunk>)
    ensures out == ApplyRerankOrder(order, ranked)
  {
    if order == [] {
      return ranked;
    }
    var byId := IndexById(ranked);
    var named, seen := TakeNamed(order, byId);
    out := AppendRemaining(named, ranked, seen);
  }

  /** The loop filling byID. */
  method IndexById(ranked: seq<ScoredChunk>) returns (byId: map<string, ScoredChunk>)
    ensures byId == ById(ranked)
  {
    byId := map[];
    var i := 0;
    while i < |ranked|
      invariant 0 <= i <= |ranked|
      invariant byId == ById(ranked[..i])
    {
      var pre := ranked[..i + 1];
      assert pre[..|pre| - 1] == ranked[..i] && pre[|pre| - 1] == ranked[i];
      assert ById(pre) == ById(ranked[..i])[Id(ranked[i]) := ranked[i]];
      byId := byId[Id(ranked[i]) := ranked[i]];
      i := i + 1;
    }
    assert ranked[..i] == ranked;
  }

  /** The loop over the order, with its `seen` set. */
  method TakeNamed(order: seq<string>, byId: map<string, ScoredChunk>) returns (out: seq<ScoredChunk>, seen: set<string>)
    ensures Named(out, seen) == NamedFrom(order, byId, {})
  {
    out := [];
    seen := {};
    var j := 0;
    assert order[j..] == order;
    while j < |order|
      invariant 0 <= j <= |order|
      invariant out + NamedFrom(order[j..], byId, seen).items == NamedFrom(order, byId, {}).items
      invariant NamedFrom(order[j..], byId, seen).seen == NamedFrom(order, byId, {}).seen
    {
      assert order[j..][1..] == order[j + 1..];
      var id := TrimSpace(order[j]);
      if id in byId && id !in seen {
        var rest := NamedFrom(order[j + 1..], byId, seen + {id});
        assert out + ([byId[id]] + rest.items) == (out + [byId[id]]) + rest.items;
        out := out + [byId[id]];
        seen := seen + {id};
      }
      j := j + 1;
    }
    assert order[j..] == [];
    assert out + [] == out;
    assert NamedFrom([], byId, seen) == Named([], seen);
  }

  /** The loop appending the candidates not named. */
  method AppendRemaining(named: seq<ScoredChunk>, ranked: seq<ScoredChunk>, seen: set<string>) returns (out: seq<ScoredChunk>)
    ensures out == named + Remaining(ranked, seen)
  {
    out := named;
    var k := 0;
    assert ranked[k..] == ranked;
    while k < |ranked|
      invariant 0 <= k <= |ranked|
      invariant out + Remaining(ranked[k..], seen) == named + Remaining(ranked, seen)
    {
      assert ranked[k..][1..] == ranked[k + 1..];
      if Id(ranked[k]) !in seen {
        assert out + ([ranked[k]] + Remaining(ranked[k + 1..], seen)) == (out + [ranked[k]]) + Remaining(ranked[k + 1..], seen);
        out := out + [ranked[k]];
      } else {
        assert [] + Remaining(ranked[k + 1..], seen) == Remaining(ranked[k + 1..], seen);
      }
      k := k + 1;
    }
    assert ranked[k..] == [];
    assert out + [] == out;
  }

  /** The named candidates are candidates filed under their own ids, new
      to `seen`, pairwise different and added to it one each. */
  lemma {:induction false} NamedFromItems(order: seq<string>, byId: map<string, ScoredChunk>, seen: set<string>)
    requires Consistent(byId)
    ensures FromMap(NamedFrom(order, byId, seen).items, byId, seen, NamedFrom(order, byId, seen).seen)
    ensures DistinctIds(NamedFrom(order, byId, seen).items)
    ensures |NamedFrom(order, byId, seen).seen| == |seen| + |NamedFrom(order, byId, seen).items|
    decreases |order|
  {
    if order != [] {
      var id := TrimSpace(order[0]);
      if id !in byId || id in seen {
        NamedFromItems(order[1..], byId, seen);
      } else {
        var rest := NamedFrom(order[1..], byId, seen + {id});
        NamedFromItems(order[1..], byId, seen + {id});
        var items := [byId[id]] + rest.items;
        assert NamedFrom(order, byId, seen) == Named(items, rest.seen);
        forall i | 0 <= i < |items|
          ensures Id(items[i]) in byId && byId[Id(items[i])] == items[i] && Id(items[i]) !in seen && Id(items[i]) in rest.seen
        {
          if i > 0 {
            assert items[i] == rest.items[i - 1];
          }
        }
        forall i, j | 0 <= i < j < |items| ensures Id(items[i]) != Id(items[j]) {
          assert items[j] == rest.items[j - 1];
          if i > 0 {
            assert items[i] == rest.items[i - 1];
          }
        }
        assert |seen + {id}| == |seen| + 1;
      }
    }
  }

  /** Each item is the map's entry for its own id, which was not in
      `before` and is in `after`. */
  predicate FromMap(items: seq<ScoredChunk>, byId: map<string, ScoredChunk>, before: set<string>, after: set<string>) {
    forall i :: 0 <= i < |items| ==>
      Id(items[i]) in byId && byId[Id(items[i])] == items[i] && Id(items[i]) !in before && Id(items[i]) in after
  }

  /** `order` names `id`, once trimmed. */
  predicate Mentioned(order: seq<string>, id: string) {
    exists j :: 0 <= j < |order| && TrimSpace(order[j]) == id
  }

  /** Every id added to `seen` is the id of an item taken. */
  predicate SeenTaken(after: set<string>, before: set<string>, items: seq<ScoredChunk>) {
    forall k :: k in after ==> k in before || exists i :: 0 <= i < |items| && Id(items[i]) == k
  }

  /** Every named id found in the map ends up in `seen`, and every item
      taken is named. */
  predicate OrderTaken(order: seq<string>, byId: map<string, ScoredChunk>, items: seq<ScoredChunk>, after: set<string>) {
    && (forall j :: 0 <= j < |order| && TrimSpace(order[j]) in byId ==> TrimSpace(order[j]) in after)
    && (forall i :: 0 <= i < |items| ==> Mentioned(order, Id(items[i])))
  }

  /** The final `seen` set holds the ids taken and every named id the map
      knows; every item taken was named. */
  lemma {:induction false} NamedFromSeen(order: seq<string>, byId: map<string, ScoredChunk>, seen: set<string>)
    requires Consistent(byId)
    ensures SeenTaken(NamedFrom(order, byId, seen).seen, seen, NamedFrom(order, byId, seen).items)
    ensures OrderTaken(order, byId, NamedFrom(order, byId, seen).items, NamedFrom(order, byId, seen).seen)
    decreases |order|
  {
    if order != [] {
      var id := TrimSpace(order[0]);
      var n := NamedFrom(order, byId, seen);
      if id !in byId || id in seen {
        NamedFromSeen(order[1..], byId, seen);
        forall j | 0 <= j < |order| && TrimSpace(order[j]) in byId ensures TrimSpace(order[j]) in n.seen {
          if j > 0 {
            assert order[1..][j - 1] == order[j];
          }
        }
        forall i | 0 <= i < |n.items| ensures Mentioned(order, Id(n.items[i])) {
          var j :| 0 <= j < |order[1..]| && TrimSpace(order[1..][j]) == Id(n.items[i]);
          assert order[1..][j] == order[j + 1];
        }
      } else {
        var rest := NamedFrom(order[1..], byId, seen + {id});
        NamedFromSeen(order[1..], byId, seen + {id});
        assert n == Named([byId[id]] + rest.items, rest.seen);
        forall k | k in n.seen ensures k in seen || exists i :: 0 <= i < |n.items| && Id(n.items[i]) == k {
          if k !in seen {
            if k == id {
              assert Id(n.items[0]) == k;
            } else {
              var i :| 0 <= i < |rest.items| && Id(rest.items[i]) == k;
              assert n.items[i + 1] == rest.items[i];
            }
          }
        }
        forall j | 0 <= j < |order| && TrimSpace(order[j]) in byId ensures TrimSpace(order[j]) in n.seen {
          if j > 0 {
            assert order[1..][j - 1] == order[j];
          }
        }
        forall i | 0 <= i < |n.items| ensures Mentioned(order, Id(n.items[i])) {
          if i == 0 {
            assert TrimSpace(order[0]) == Id(n.items[0]);
          } else {
            assert n.items[i] == rest.items[i - 1];
            var j :| 0 <= j < |order[1..]| && TrimSpace(order[1..][j]) == Id(rest.items[i - 1]);
            assert order[1..][j] == order[j + 1];
          }
        }
      }
    }
  }

  /** The candidates left are those of the ranking whose id is not in
      `seen`. */
  lemma {:induction false} RemainingMembers(ranked: seq<ScoredChunk>, seen: set<string>, x: ScoredChunk)
    ensures x in Remaining(ranked, seen) <==> x in ranked && Id(x) !in seen
    decreases |ranked|
  {
    if ranked != [] {
      RemainingMembers(ranked[1..], seen, x);
      assert ranked == [ranked[0]] + ranked[1..];
    }
  }

  /** Leaving candidates out keeps the ids distinct. */
  lemma {:induction false} RemainingDistinct(ranked: seq<ScoredChunk>, seen: set<string>)
    requires DistinctIds(ranked)
    ensures DistinctIds(Remaining(ranked, seen))
    decreases |ranked|
  {
    if ranked != [] {
      var tail := ranked[1..];
      assert DistinctIds(tail) by {
        forall i, j | 0 <= i < j < |tail| ensures Id(tail[i]) != Id(tail[j]) {
          assert tail[i] == ranked[i + 1] && tail[j] == ranked[j + 1];
        }
      }
      RemainingDistinct(tail, seen);
      var rest := Remaining(tail, seen);
      if Id(ranked[0]) !in seen {
        var r := [ranked[0]] + rest;
        forall i, j | 0 <= i < j < |r| ensures Id(r[i]) != Id(r[j]) {
          assert r[j] == rest[j - 1];
          if i > 0 {
            assert r[i] == rest[i - 1];
          } else {
            RemainingMembers(tail, seen, rest[j - 1]);
            var p :| 0 <= p < |tail| && tail[p] == rest[j - 1];
            assert ranked[p + 1] == tail[p];
          }
        }
      }
    }
  }

  /** An id no candidate has makes no difference to `seen`. */
  lemma {:induction false} RemainingIgnores(ranked: seq<ScoredChunk>, seen: set<string>, k: string)
    requires forall i :: 0 <= i < |ranked| ==> Id(ranked[i]) != k
    ensures Remaining(ranked, seen) == Remaining(ranked, seen - {k})
    decreases |ranked|
  {
    if ranked != [] {
      RemainingIgnores(ranked[1..], seen, k);
    }
  }

  /** Sets that agree on the candidates' ids leave the same candidates. */
  lemma {:induction false} RemainingSameOn(ranked: seq<ScoredChunk>, a: set<string>, b: set<string>)
    requires forall i :: 0 <= i < |ranked| ==> (Id(ranked[i]) in a <==> Id(ranked[i]) in b)
    ensures Remaining(ranked, a) == Remaining(ranked, b)
    decreases |ranked|
  {
    if ranked != [] {
      RemainingSameOn(ranked[1..], a, b);
    }
  }

  /** With distinct ids, leaving out the candidates of a set of their ids
      leaves as many candidates fewer as the set has ids. */
  lemma {:induction false} RemainingSize(ranked: seq<ScoredChunk>, seen: set<string>)
    requires DistinctIds(ranked)
    requires forall k :: k in seen ==> exists i :: 0 <= i < |ranked| && Id(ranked[i]) == k
    ensures |Remaining(ranked, seen)| + |seen| == |ranked|
    decreases |ranked|
  {
    if ranked != [] {
      var x := ranked[0];
      var tail := ranked[1..];
      assert DistinctIds(tail) by {
        forall i, j | 0 <= i < j < |tail| ensures Id(tail[i]) != Id(tail[j]) {
          assert tail[i] == ranked[i + 1] && tail[j] == ranked[j + 1];
        }
      }
      var s' := seen - {Id(x)};
      forall k | k in s' ensures exists i :: 0 <= i < |tail| && Id(tail[i]) == k {
        var i :| 0 <= i < |ranked| && Id(ranked[i]) == k;
        assert i != 0;
        assert tail[i - 1] == ranked[i];
      }
      RemainingSize(tail, s');
      assert forall i :: 0 <= i < |tail| ==> Id(tail[i]) != Id(x) by {
        forall i | 0 <= i < |tail| ensures Id(tail[i]) != Id(x) {
          assert tail[i] == ranked[i + 1];
        }
      }
      if Id(x) in seen {
        RemainingIgnores(tail, seen, Id(x));
        assert |s'| == |seen| - 1;
      } else {
        assert s' == seen;
      }
    }
  }

  /** The ids the order names, once trimmed. */
  function Names(order: seq<string>): set<string> {
    set j | 0 <= j < |order| :: TrimSpace(order[j])
  }

  /** For candidates with distinct chunk ids, applyRerankOrder returns a
      permutation of them: as many, the same ones, ids still distinct. */
  lemma ApplyPermutes(order: seq<string>, ranked: seq<ScoredChunk>)
    requires DistinctIds(ranked)
    ensures |ApplyRerankOrder(order, ranked)| == |ranked|
    ensures forall x :: x in ApplyRerankOrder(order, ranked) <==> x in ranked
    ensures DistinctIds(ApplyRerankOrder(order, ranked))
  {
    if order != [] {
      var byId := ById(ranked);
      var n := NamedFrom(order, byId, {});
      NamedFromItems(order, byId, {});
      NamedFromSeen(order, byId, {});
      assert ApplyRerankOrder(order, ranked) == n.items + Remaining(ranked, n.seen);
      SplitLength(ranked, n);
      SplitMembers(ranked, n);
      SplitDistinct(ranked, n);
    }
  }

  /** What the two loops over the order leave: items taken from the map
      of the ranking, with distinct ids, and their `seen` set. */
  predicate Taken(ranked: seq<ScoredChunk>, n: Named) {
    && FromMap(n.items, ById(ranked), {}, n.seen)
    && DistinctIds(n.items)
    && |n.seen| == |n.items|
    && SeenTaken(n.seen, {}, n.items)
  }

  lemma SplitLength(ranked: seq<ScoredChunk>, n: Named)
    requires DistinctIds(ranked) && Taken(ranked, n)
    ensures |n.items + Remaining(ranked, n.seen)| == |ranked|
  {
    forall k | k in n.seen ensures exists i :: 0 <= i < |ranked| && Id(ranked[i]) == k {
      var i :| 0 <= i < |n.items| && Id(n.items[i]) == k;
      assert n.items[i] in ranked;
      var p :| 0 <= p < |ranked| && ranked[p] == n.items[i];
    }
    RemainingSize(ranked, n.seen);
  }

  lemma SplitMembers(ranked: seq<ScoredChunk>, n: Named)
    requires DistinctIds(ranked) && Taken(ranked, n)
    ensures forall x :: x in n.items + Remaining(ranked, n.seen) <==> x in ranked
  {
    var r := n.items + Remaining(ranked, n.seen);
    forall x ensures x in r <==> x in ranked {
      RemainingMembers(ranked, n.seen, x);
      if x in ranked && Id(x) in n.seen {
        var p :| 0 <= p < |ranked| && ranked[p] == x;
        ByIdDistinct(ranked, p);
        var i :| 0 <= i < |n.items| && Id(n.items[i]) == Id(x);
        assert r[i] == x;
      }
      if x in n.items {
        var i :| 0 <= i < |n.items| && n.items[i] == x;
        assert ById(ranked)[Id(x)] == x;
      }
    }
  }

  lemma SplitDistinct(ranked: seq<ScoredChunk>, n: Named)
    requires DistinctIds(ranked) && Taken(ranked, n)
    ensures DistinctIds(n.items + Remaining(ranked, n.seen))
  {
    var rem := Remaining(ranked, n.seen);
    var r := n.items + rem;
    RemainingDistinct(ranked, n.seen);
    forall i, j | 0 <= i < j < |r| ensures Id(r[i]) != Id(r[j]) {
      if j < |n.items| {
        assert r[i] == n.items[i] && r[j] == n.items[j];
      } else if i >= |n.items| {
        assert r[i] == rem[i - |n.items|] && r[j] == rem[j - |n.items|];
      } else {
        assert r[i] == n.items[i] && r[j] == rem[j - |n.items|];
        RemainingMembers(ranked, n.seen, rem[j - |n.items|]);
      }
    }
  }

  /** The candidates the order names come first; after them come all the
      others, in their ranked order. */
  lemma ApplyNamedFirst(order: seq<string>, ranked: seq<ScoredChunk>)
    requires order != []
    ensures var r := ApplyRerankOrder(order, ranked);
      exists p :: 0 <= p <= |r|
        && (forall i :: 0 <= i < p ==> Id(r[i]) in Names(order))
        && r[p..] == Remaining(ranked, Names(order))
  {
    var byId := ById(ranked);
    var n := NamedFrom(order, byId, {});
    NamedFromSeen(order, byId, {});
    var r := ApplyRerankOrder(order, ranked);
    var p := |n.items|;
    forall i | 0 <= i < p ensures Id(r[i]) in Names(order) {
      assert r[i] == n.items[i];
      var j :| 0 <= j < |order| && TrimSpace(order[j]) == Id(n.items[i]);
    }
    forall i | 0 <= i < |ranked| ensures Id(ranked[i]) in n.seen <==> Id(ranked[i]) in Names(order) {
      if Id(ranked[i]) in Names(order) {
        var j :| 0 <= j < |order| && TrimSpace(order[j]) == Id(ranked[i]);
        assert ranked[i] in ranked;
      }
      if Id(ranked[i]) in n.seen {
        var k :| 0 <= k < |n.items| && Id(n.items[k]) == Id(ranked[i]);
        var j :| 0 <= j < |order| && TrimSpace(order[j]) == Id(n.items[k]);
      }
    }
    RemainingSameOn(ranked, n.seen, Names(order));
    assert r[p..] == Remaining(ranked, n.seen);
  }

  /** No id is named twice, once trimmed. */
  predicate NoRepeats(order: seq<string>) {
    forall i, j :: 0 <= i < j < |order| ==> TrimSpace(order[i]) != TrimSpace(order[j])
  }

  /** No id named is in `seen`. */
  predicate Unseen(order: seq<string>, seen: set<string>) {
    forall j :: 0 <= j < |order| ==> TrimSpace(order[j]) !in seen
  }

  /** Both facts pass from an order to its tail, the head joining `seen`
      or not. */
  lemma NoRepeatsTail(order: seq<string>, seen: set<string>, add: set<string>)
    requires order != [] && NoRepeats(order) && Unseen(order, seen)
    requires add <= {TrimSpace(order[0])}
    ensures NoRepeats(order[1..]) && Unseen(order[1..], seen + add)
  {
    var tail := order[1..];
    forall i, j | 0 <= i < j < |tail| ensures TrimSpace(tail[i]) != TrimSpace(tail[j]) {
      assert tail[i] == order[i + 1] && tail[j] == order[j + 1];
    }
    forall j | 0 <= j < |tail| ensures TrimSpace(tail[j]) !in seen + add {
      assert tail[j] == order[j + 1];
    }
  }

  /** Skipping repeated ids changes nothing when no id is named twice:
      the code as written and the corrected loop agree. */
  lemma {:induction false} NamedAgree(order: seq<string>, byId: map<string, ScoredChunk>, seen: set<string>)
    requires NoRepeats(order) && Unseen(order, seen)
    ensures NamedFrom(order, byId, seen).items == NamedAsWritten(order, byId)
    ensures NamedFrom(order, byId, seen).seen == seen + NamedIds(order, byId)
    decreases |order|
  {
    if order != [] {
      var id := TrimSpace(order[0]);
      var tail := order[1..];
      assert id !in seen;
      if id in byId {
        NoRepeatsTail(order, seen, {id});
        NamedAgree(tail, byId, seen + {id});
      } else {
        NoRepeatsTail(order, seen, {});
        assert seen + {} == seen;
        NamedAgree(tail, byId, seen);
      }
    }
  }

  /** When the order names every id at most once, the code as written
      already returns the corrected result. */
  lemma AsWrittenAgrees(order: seq<string>, ranked: seq<ScoredChunk>)
    requires NoRepeats(order)
    ensures ApplyRerankOrderAsWritten(order, ranked) == ApplyRerankOrder(order, ranked)
  {
    if order != [] {
      NamedAgree(order, ById(ranked), {});
      assert {} + NamedIds(order, ById(ranked)) == NamedIds(order, ById(ranked));
    }
  }

  // ---------------------------------------------------------------------
  // rerankContext

  /** What a missing chunk reads as: Go's zero ChunkMeta. */
  const NoMeta := ChunkMeta("", "", "", "", "", "", 0, "")

  function MetaOf(chunks: map<string, ChunkMeta>, id: string): ChunkMeta {
    if id in chunks then chunks[id] else NoMeta
  }

  /** One candidate rescored: its text score is the overlap of the
      question with its passage, raised to 1.2 times the overlap with its
      section when that is larger; its score blends the vector and text
      scores with the rerank weight. */
  function Rescore(item: ScoredChunk, chunks: map<string, ChunkMeta>, normalized: string, weight: real): (r: ScoredChunk)
    ensures r.result == item.result && r.vectorScore == item.vectorScore
    ensures OverlapScore(normalized, MetaOf(chunks, Id(item)).content) <= r.textScore <= 1.2
    ensures 1.2 * OverlapScore(normalized, MetaOf(chunks, Id(item)).section) <= r.textScore
    ensures weight <= 0.0 ==> r.score == item.vectorScore
    ensures weight >= 1.0 ==> r.score == r.textScore
    ensures 0.0 < weight < 1.0 ==>
      (r.vectorScore <= r.score <= r.textScore || r.textScore <= r.score <= r.vectorScore)
  {
    var meta := MetaOf(chunks, Id(item));
    var text := OverlapScore(normalized, meta.content);
    var section := OverlapScore(normalized, meta.section);
    var t := if section > 0.0 then MaxReal(text, section * 1.2) else text;
    item.(textScore := t, score := CombineScores(item.vectorScore, t, weight))
  }

  /** Every candidate rescored, in place. */
  function Rescored(ranked: seq<ScoredChunk>, chunks: map<string, ChunkMeta>, normalized: string, weight: real): (r: seq<ScoredChunk>)
    ensures |r| == |ranked|
    ensures forall i :: 0 <= i < |r| ==> r[i] == Rescore(ranked[i], chunks, normalized, weight)
  {
    seq(|ranked|, i requires 0 <= i < |ranked| => Rescore(ranked[i], chunks, normalized, weight))
  }

  /** The ranking rerankContext leaves: rescored, then stably sorted by
      score, highest first. */
  function Reranked(ranked: seq<ScoredChunk>, chunks: map<string, ChunkMeta>, normalized: string, weight: real): seq<ScoredChunk> {
    SortDesc(Rescored(ranked, chunks, normalized, weight))
  }

  /** The loop of rerankContext that rewrites each candidate in place. */
  method RescoreAll(ranked: seq<ScoredChunk>, chunks: map<string, ChunkMeta>, normalized: string, weight: real)
    returns (out: seq<ScoredChunk>)
    ensures out == Rescored(ranked, chunks, normalized, weight)
  {
    out := ranked;
    var i := 0;
    while i < |out|
      invariant 0 <= i <= |out| == |ranked|
      invariant forall k :: 0 <= k < i ==> out[k] == Rescore(ranked[k], chunks, normalized, weight)
      invariant forall k :: i <= k < |out| ==> out[k] == ranked[k]
    {
      out := out[i := Rescore(out[i], chunks, normalized, weight)];
      i := i + 1;
    }
  }

  /** Two orderings of the same candidates both have distinct ids or
      neither has. */
  lemma PermutationDistinct(a: seq<ScoredChunk>, b: seq<ScoredChunk>)
    requires multiset(a) == multiset(b) && DistinctIds(a)
    ensures DistinctIds(b)
  {
    forall i, j | 0 <= i < j < |b| ensures Id(b[i]) != Id(b[j]) {
      assert b[i] in multiset(a) && b[j] in multiset(a);
      var p :| 0 <= p < |a| && a[p] == b[i];
      var q :| 0 <= q < |a| && a[q] == b[j];
      if b[i] == b[j] {
        var x := b[i];
        assert multiset(b)[x] >= 2 by {
          assert b == b[..i] + [x] + b[i + 1..];
          assert x in b[i + 1..] by { assert b[i + 1..][j - i - 1] == x; }
        }
        MultiplicityOne(a, x);
      } else {
        assert p != q;
      }
    }
  }

  /** rerankContext keeps every candidate once, each with its search
      result and vector score, now highest combined score first; distinct
      chunk ids stay distinct. */
  lemma RerankedShape(ranked: seq<ScoredChunk>, chunks: map<string, ChunkMeta>, normalized: string, weight: real)
    ensures var r := Reranked(ranked, chunks, normalized, weight);
      && |r| == |ranked|
      && SortedDesc(r)
      && multiset(r) == multiset(Rescored(ranked, chunks, normalized, weight))
      && (forall k :: 0 <= k < |r| ==> exists i :: 0 <= i < |ranked| && r[k].result == ranked[i].result && r[k].vectorScore == ranked[i].vectorScore)
      && (DistinctIds(ranked) ==> DistinctIds(r))
  {
    var s := Rescored(ranked, chunks, normalized, weight);
    var r := Reranked(ranked, chunks, normalized, weight);
    forall k | 0 <= k < |r| ensures exists i :: 0 <= i < |ranked| && r[k].result == ranked[i].result && r[k].vectorScore == ranked[i].vectorScore {
      assert r[k] in multiset(s);
      var i :| 0 <= i < |s| && s[i] == r[k];
    }
    if DistinctIds(ranked) {
      assert DistinctIds(s) by {
        forall i, j | 0 <= i < j < |s| ensures Id(s[i]) != Id(s[j]) {
        }
      }
      PermutationDistinct(s, r);
    }
  }

  /** The stable sort leaves a ranking that is already in order alone. */
  lemma {:induction false} SortDescSorted(s: seq<ScoredChunk>)
    requires SortedDesc(s)
    ensures SortDesc(s) == s
    decreases |s|
  {
    if s != [] {
      assert SortedDesc(s[1..]);
      SortDescSorted(s[1..]);
      assert [s[0]] + s[1..] == s;
    }
  }

  /** With a rerank weight of zero, candidates in descending vector-score
      order, as retrieval leaves them, keep their order. */
  lemma RerankZeroWeight(ranked: seq<ScoredChunk>, chunks: map<string, ChunkMeta>, normalized: string, weight: real)
    requires weight <= 0.0 && SortedDesc(ranked)
    requires forall i :: 0 <= i < |ranked| ==> ranked[i].score == ranked[i].vectorScore
    ensures Reranked(ranked, chunks, normalized, weight) == Rescored(ranked, chunks, normalized, weight)
  {
    var s := Rescored(ranked, chunks, normalized, weight);
    assert SortedDesc(s);
    SortDescSorted(s);
  }

  // ---------------------------------------------------------------------
  // crossEncoderRerank

  const CrossEncoderTopN := 8
  const CrossTimeoutMin := 1200
  const CrossTimeoutMax := 2500

  /** The candidates shown to the cross-encoder: the first eight. */
  function CrossEncoderCandidates(ranked: seq<ScoredChunk>): (top: seq<ScoredChunk>)
    ensures |top| == (if |ranked| < CrossEncoderTopN then |ranked| else CrossEncoderTopN)
    ensures top == ranked[..|top|]
  {
    if |ranked| < CrossEncoderTopN then ranked else ranked[..CrossEncoderTopN]
  }

  /** The cross-encoder call's timeout in milliseconds: a fifth of the LLM
      timeout, clamped into [1200, 2500], and shortened to the whole
      milliseconds left before the deadline when some time is left and it
      is less. `remainingNs` is the time to the context's deadline in
      nanoseconds, None without a deadline. Negative LLM timeouts clamp to
      1200 whatever the rounding of the division. */
  function CrossEncoderTimeout(llmTimeoutMs: int, remainingNs: Option<int>): (t: int)
    ensures 0 <= t <= CrossTimeoutMax
    ensures remainingNs.None? || remainingNs.value <= 0 ==> CrossTimeoutMin <= t
    ensures remainingNs.Some? && remainingNs.value > 0 ==> t <= remainingNs.value / 1000000
    ensures t == 0 <==> remainingNs.Some? && 0 < remainingNs.value < 1000000
    ensures (remainingNs.None? || remainingNs.value / 1000000 >= CrossTimeoutMax)
            && 5 * CrossTimeoutMin <= llmTimeoutMs ==>
      t == (if llmTimeoutMs / 5 > CrossTimeoutMax then CrossTimeoutMax else llmTimeoutMs / 5)
  {
    var base := llmTimeoutMs / 5;
    var clamped := if base < CrossTimeoutMin then CrossTimeoutMin else if base > CrossTimeoutMax then CrossTimeoutMax else base;
    if remainingNs.Some? && remainingNs.value > 0 && remainingNs.value / 1000000 < clamped then remainingNs.value / 1000000
    else clamped
  }

  /** The model name contains "fake", ignoring case and outer space. */
  predicate IsFakeModel(model: string) {
    Contains(Lower(TrimSpace(model)), "fake")
  }

  /** crossEncoderRerank calls the LLM: more than one candidate, an LLM
      (its model name; None for none) that is not a fake one, and a
      positive timeout. The prompt, which always starts with fixed
      instructions, is never empty. */
  predicate CrossEncoderCalls(ranked: seq<ScoredChunk>, llm: Option<string>, llmTimeoutMs: int, remainingNs: Option<int>) {
    && |ranked| >= 2
    && llm.Some? && !IsFakeModel(llm.value)
    && CrossEncoderTimeout(llmTimeoutMs, remainingNs) > 0
  }

  /** What crossEncoderRerank leaves: the (possibly reordered) ranking and
      no error, or the error of the LLM call with the ranking untouched. */
  datatype CrossResult = Reordered(ranked: seq<ScoredChunk>) | CallFailed

  /** crossEncoderRerank. `reply` is the LLM's answer to the prompt built
      from CrossEncoderCandidates(ranked), None when the call failed. */
  function CrossEncoderRerank(ranked: seq<ScoredChunk>, llm: Option<string>, llmTimeoutMs: int, remainingNs: Option<int>,
                              reply: Option<string>, decode: string -> Option<seq<string>>): (r: CrossResult)
    ensures !CrossEncoderCalls(ranked, llm, llmTimeoutMs, remainingNs) ==> r == Reordered(ranked)
    ensures r.CallFailed? <==> CrossEncoderCalls(ranked, llm, llmTimeoutMs, remainingNs) && reply.None?
    ensures r.Reordered? && reply.Some? && ParseRerankOrder(reply.value, decode) == [] ==> r == Reordered(ranked)
  {
    if !CrossEncoderCalls(ranked, llm, llmTimeoutMs, remainingNs) then Reordered(ranked)
    else if reply.None? then CallFailed
    else
      var order := ParseRerankOrder(reply.value, decode);
      if order == [] then Reordered(ranked) else Reordered(ApplyRerankOrder(order, ranked))
  }

  /** The cross-encoder only ever permutes candidates with distinct ids. */
  lemma CrossEncoderPermutes(ranked: seq<ScoredChunk>, llm: Option<string>, llmTimeoutMs: int, remainingNs: Option<int>,
                             reply: Option<string>, decode: string -> Option<seq<string>>)
    requires DistinctIds(ranked)
    ensures var r := CrossEncoderRerank(ranked, llm, llmTimeoutMs, remainingNs, reply, decode);
      r.Reordered? ==>
        |r.ranked| == |ranked| && (forall x :: x in r.ranked <==> x in ranked) && DistinctIds(r.ranked)
  {
    if CrossEncoderCalls(ranked, llm, llmTimeoutMs, remainingNs) && reply.Some? {
      ApplyPermutes(ParseRerankOrder(reply.value, decode), ranked);
    }
  }

  // ---------------------------------------------------------------------
  // assessContext

  datatype Assessment = Assessment(ranked: seq<ScoredChunk>, confidence: real, shouldRefuse: bool)

  /** assessContext: the confidence of the ranking; when there is more
      than one candidate and it is below the threshold, the cross-encoder
      is tried and the confidence taken again after a successful call; the
      answer is refused exactly when nothing is ranked or the confidence
      stays below the threshold. */
  function Assess(ranked: seq<ScoredChunk>, topK: int, threshold: real, llm: Option<string>, llmTimeoutMs: int,
                  remainingNs: Option<int>, reply: Option<string>, decode: string -> Option<seq<string>>): (a: Assessment)
    ensures a.confidence == Confidence(a.ranked, topK)
    ensures 0.0 <= a.confidence <= 1.0
    ensures a.shouldRefuse <==> a.ranked == [] || a.confidence < threshold
    ensures !(|ranked| > 1 && Confidence(ranked, topK) < threshold) ==> a.ranked == ranked
    ensures !CrossEncoderCalls(ranked, llm, llmTimeoutMs, remainingNs) ==> a.ranked == ranked
    ensures ranked == [] ==> a.shouldRefuse
  {
    var conf := Confidence(ranked, topK);
    if |ranked| > 1 && conf < threshold then
      match CrossEncoderRerank(ranked, llm, llmTimeoutMs, remainingNs, reply, decode)
      case Reordered(r) =>
        var c := Confidence(r, topK);
        Assessment(r, c, r == [] || c < threshold)
      case CallFailed =>
        Assessment(ranked, conf, ranked == [] || conf < threshold)
    else Assessment(ranked, conf, ranked == [] || conf < threshold)
  }

  /** Assessing keeps the candidates, only possibly reordered, and a
      non-empty ranking is refused only for a confidence below the
      threshold. */
  lemma AssessPermutes(ranked: seq<ScoredChunk>, topK: int, threshold: real, llm: Option<string>, llmTimeoutMs: int,
                       remainingNs: Option<int>, reply: Option<string>, decode: string -> Option<seq<string>>)
    requires DistinctIds(ranked)
    ensures var a := Assess(ranked, topK, threshold, llm, llmTimeoutMs, remainingNs, reply, decode);
      && |a.ranked| == |ranked| && (forall x :: x in a.ranked <==> x in ranked) && DistinctIds(a.ranked)
      && (ranked != [] ==> (a.shouldRefuse <==> a.confidence < threshold))
  {
    CrossEncoderPermutes(ranked, llm, llmTimeoutMs, remainingNs, reply, decode);
  }
}
