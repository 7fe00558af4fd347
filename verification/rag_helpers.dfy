/** Small helpers of the answering pipeline
    (apps/server/internal/rag/biz/helpers.go): a per-step deadline, one
    weight per query, and the de-duplicated list of queries. */
module RagHelpers {
  import opened Text
  import opened Wrappers
  import opened Contexts

  // ---------------------------------------------------------------------
  // withTimeout

  /** withTimeout at time `now` (milliseconds): a timeout at or below 0, or
      a parent deadline no later than the timeout, keeps the context;
      otherwise the context gets the deadline now + timeout. */
  function WithTimeout(ctx: Context, timeoutMs: int, now: int): (c: Context)
    ensures c.tenant == ctx.tenant && c.claims == ctx.claims
    ensures timeoutMs <= 0 ==> c == ctx
    ensures ctx.deadline.Some? ==> c.deadline.Some? && c.deadline.value <= ctx.deadline.value
    ensures timeoutMs > 0 ==> c.deadline.Some? && c.deadline.value <= now + timeoutMs
    ensures timeoutMs > 0 && (ctx.deadline.None? || ctx.deadline.value - now > timeoutMs) ==>
      c.deadline == Some(now + timeoutMs)
  {
    if timeoutMs <= 0 then ctx
    else if ctx.deadline.Some? && ctx.deadline.value - now <= timeoutMs then ctx
    else ctx.(deadline := Some(now + timeoutMs))
  }

  /** Nesting steps never moves a deadline later: applying a timeout to a
      context that already has one keeps the earlier of the two. */
  lemma WithTimeoutNests(ctx: Context, outer: int, inner: int, now: int)
    requires outer > 0 && inner > 0
    ensures var c := WithTimeout(WithTimeout(ctx, outer, now), inner, now);
      c.deadline.Some? && c.deadline.value <= now + outer && c.deadline.value <= now + inner
  {
  }

  // ---------------------------------------------------------------------
  // alignQueryWeights

  /** The weight of query i: the given weight when there is a positive
      one, otherwise 1. */
  function AlignedWeight(weights: seq<real>, i: nat): (w: real)
    ensures w > 0.0
    ensures i < |weights| && weights[i] > 0.0 ==> w == weights[i]
    ensures i >= |weights| || weights[i] <= 0.0 ==> w == 1.0
  {
    if i < |weights| && weights[i] > 0.0 then weights[i] else 1.0
  }

  /** alignQueryWeights: exactly one positive weight per query. */
  method AlignQueryWeights(queries: seq<string>, weights: seq<real>) returns (out: seq<real>)
    ensures |out| == |queries|
    ensures forall i :: 0 <= i < |out| ==> out[i] == AlignedWeight(weights, i)
    ensures forall i :: 0 <= i < |out| ==> out[i] > 0.0
  {
    var a := new real[|queries|];
    var i := 0;
    while i < a.Length
      invariant 0 <= i <= a.Length
      invariant forall k :: 0 <= k < i ==> a[k] == AlignedWeight(weights, k)
    {
      a[i] := 1.0;
      if i < |weights| && weights[i] > 0.0 {
        a[i] := weights[i];
      }
      i := i + 1;
    }
    out := a[..];
  }

  // ---------------------------------------------------------------------
  // dedupeQueries

  /** The loop of dedupeQueries from some point on: trimmed queries that
      are not blank and whose lower-cased form has not been seen. */
  function DedupeFrom(queries: seq<string>, seen: set<string>): seq<string>
    decreases |queries|
  {
    if queries == [] then []
    else
      var q := TrimSpace(queries[0]);
      if q == "" || Lower(q) in seen then DedupeFrom(queries[1..], seen)
      else [q] + DedupeFrom(queries[1..], seen + {Lower(q)})
  }

  /** dedupeQueries: the de-duplicated queries, or the first query as
      given when every query is blank. */
  function DedupeQueries(queries: seq<string>): (r: seq<string>)
    ensures r == [] <==> queries == []
  {
    var out := DedupeFrom(queries, {});
    if out == [] && |queries| > 0 then [queries[0]] else out
  }

  /** The loop of dedupeQueries with its set of seen keys. */
  method BuildDedupe(queries: seq<string>) returns (out: seq<string>)
    ensures out == DedupeQueries(queries)
  {
    var seen: set<string> := {};
    out := [];
    var i := 0;
    assert queries[i..] == queries;
    while i < |queries|
      invariant 0 <= i <= |queries|
      invariant out + DedupeFrom(queries[i..], seen) == DedupeFrom(queries, {})
    {
      assert queries[i..][1..] == queries[i + 1..];
      var q := TrimSpace(queries[i]);
      if q == "" {
        i := i + 1;
        continue;
      }
      var key := Lower(q);
      if key in seen {
        i := i + 1;
        continue;
      }
      seen := seen + {key};
      assert out + ([q] + DedupeFrom(queries[i + 1..], seen)) == (out + [q]) + DedupeFrom(queries[i + 1..], seen);
      out := out + [q];
      i := i + 1;
    }
    assert queries[i..] == [];
    assert out + [] == out;
    if |out| == 0 && |queries| > 0 {
      return [queries[0]];
    }
  }

  /** Each query is trimmed and not blank, and its key is not in `seen`. */
  predicate Kept(r: seq<string>, seen: set<string>) {
    forall i :: 0 <= i < |r| ==> r[i] != "" && TrimSpace(r[i]) == r[i] && Lower(r[i]) !in seen
  }

  /** No two queries have the same lower-cased key. */
  predicate DistinctKeys(r: seq<string>) {
    forall i, j :: 0 <= i < j < |r| ==> Lower(r[i]) != Lower(r[j])
  }

  /** Every non-blank query's key is in `seen` or is the key of a query in r. */
  predicate Covers(queries: seq<string>, seen: set<string>, r: seq<string>) {
    forall k :: 0 <= k < |queries| && TrimSpace(queries[k]) != "" ==>
      Lower(TrimSpace(queries[k])) in seen || exists i :: 0 <= i < |r| && Lower(r[i]) == Lower(TrimSpace(queries[k]))
  }

  /** Every query kept is trimmed, not blank, unseen before, and keys
      (lower-cased forms) are pairwise different; every non-blank query
      is represented by a kept query with its key, unless its key was
      already seen. */
  lemma {:induction false} DedupeFromShape(queries: seq<string>, seen: set<string>)
    ensures Kept(DedupeFrom(queries, seen), seen)
    ensures DistinctKeys(DedupeFrom(queries, seen))
    ensures Covers(queries, seen, DedupeFrom(queries, seen))
    decreases |queries|
  {
    if queries != [] {
      var q := TrimSpace(queries[0]);
      if q == "" || Lower(q) in seen {
        DedupeFromShape(queries[1..], seen);
        CoversSkip(queries, seen, DedupeFrom(queries[1..], seen));
      } else {
        var seen' := seen + {Lower(q)};
        DedupeFromShape(queries[1..], seen');
        var rest := DedupeFrom(queries[1..], seen');
        TrimSpaceIdempotent(queries[0]);
        KeptCons(q, rest, seen);
        CoversCons(queries, seen, rest);
        assert DedupeFrom(queries, seen) == [q] + rest;
      }
    }
  }

  /** A kept head query in front of queries kept with its key seen. */
  lemma KeptCons(q: string, rest: seq<string>, seen: set<string>)
    requires q != "" && TrimSpace(q) == q && Lower(q) !in seen
    requires Kept(rest, seen + {Lower(q)}) && DistinctKeys(rest)
    ensures Kept([q] + rest, seen) && DistinctKeys([q] + rest)
  {
    var r := [q] + rest;
    forall i | 0 < i < |r| ensures r[i] == rest[i - 1] {
    }
  }

  /** A skipped blank or already-seen head query needs no representative. */
  lemma CoversSkip(queries: seq<string>, seen: set<string>, r: seq<string>)
    requires queries != [] && (TrimSpace(queries[0]) == "" || Lower(TrimSpace(queries[0])) in seen)
    requires Covers(queries[1..], seen, r)
    ensures Covers(queries, seen, r)
  {
    forall k | 0 < k < |queries| ensures queries[k] == queries[1..][k - 1] {
    }
  }

  /** A kept head query represents its own key in front of the rest. */
  lemma CoversCons(queries: seq<string>, seen: set<string>, rest: seq<string>)
    requires queries != [] && TrimSpace(queries[0]) != ""
    requires Covers(queries[1..], seen + {Lower(TrimSpace(queries[0]))}, rest)
    ensures Covers(queries, seen, [TrimSpace(queries[0])] + rest)
  {
    var q := TrimSpace(queries[0]);
    var r := [q] + rest;
    forall k | 0 <= k < |queries| && TrimSpace(queries[k]) != ""
      ensures Lower(TrimSpace(queries[k])) in seen || exists i :: 0 <= i < |r| && Lower(r[i]) == Lower(TrimSpace(queries[k]))
    {
      if k == 0 || Lower(TrimSpace(queries[k])) == Lower(q) {
        assert Lower(r[0]) == Lower(q);
      } else if Lower(TrimSpace(queries[k])) !in seen {
        assert queries[k] == queries[1..][k - 1];
        var i :| 0 <= i < |rest| && Lower(rest[i]) == Lower(TrimSpace(queries[k]));
        assert r[i + 1] == rest[i];
      }
    }
  }

  /** `r` keeps, in input order, the first non-blank query of each key:
      r[j] is the trimmed query at position idx[j], no earlier non-blank
      query has its key, its key is not in `seen`, and the positions
      increase. */
  predicate FirstOfKey(r: seq<string>, queries: seq<string>, seen: set<string>, idx: seq<int>) {
    && |idx| == |r|
    && (forall j :: 0 <= j < |idx| ==>
          && 0 <= idx[j] < |queries|
          && r[j] == TrimSpace(queries[idx[j]])
          && Lower(r[j]) !in seen
          && (forall k :: 0 <= k < idx[j] && TrimSpace(queries[k]) != "" ==> Lower(TrimSpace(queries[k])) != Lower(r[j])))
    && (forall i, j :: 0 <= i < j < |idx| ==> idx[i] < idx[j])
  }

  /** Positions found in the tail, moved past the head query, whose key
      is blank or already seen. */
  lemma FirstOfKeyShift(r: seq<string>, queries: seq<string>, seen: set<string>, idx: seq<int>) returns (idx': seq<int>)
    requires queries != []
    requires TrimSpace(queries[0]) == "" || Lower(TrimSpace(queries[0])) in seen
    requires FirstOfKey(r, queries[1..], seen, idx)
    ensures FirstOfKey(r, queries, seen, idx')
    ensures forall j :: 0 <= j < |idx'| ==> idx'[j] > 0
  {
    var tail := queries[1..];
    idx' := seq(|idx|, j requires 0 <= j < |idx| => idx[j] + 1);
    forall j | 0 <= j < |idx'|
      ensures forall k :: 0 <= k < idx'[j] && TrimSpace(queries[k]) != "" ==> Lower(TrimSpace(queries[k])) != Lower(r[j])
    {
      forall k | 0 <= k < idx'[j] && TrimSpace(queries[k]) != ""
        ensures Lower(TrimSpace(queries[k])) != Lower(r[j])
      {
        if k > 0 {
          assert queries[k] == tail[k - 1];
        }
      }
    }
  }

  /** The head query kept in front of the first queries of the tail. */
  lemma FirstOfKeyCons(r: seq<string>, queries: seq<string>, seen: set<string>, idx: seq<int>)
    requires queries != [] && TrimSpace(queries[0]) != ""
    requires FirstOfKey(r, queries, seen + {Lower(TrimSpace(queries[0]))}, idx)
    requires forall j :: 0 <= j < |idx| ==> idx[j] > 0
    requires Lower(TrimSpace(queries[0])) !in seen
    ensures FirstOfKey([TrimSpace(queries[0])] + r, queries, seen, [0] + idx)
  {
    var r' := [TrimSpace(queries[0])] + r;
    var idx' := [0] + idx;
    forall j | 0 <= j < |idx'|
      ensures 0 <= idx'[j] < |queries| && r'[j] == TrimSpace(queries[idx'[j]]) && Lower(r'[j]) !in seen
      ensures forall k :: 0 <= k < idx'[j] && TrimSpace(queries[k]) != "" ==> Lower(TrimSpace(queries[k])) != Lower(r'[j])
    {
      if j > 0 {
        assert r'[j] == r[j - 1] && idx'[j] == idx[j - 1];
      }
    }
  }

  /** The loop keeps the first query of each key, in input order. */
  lemma {:induction false} DedupeFromFirst(queries: seq<string>, seen: set<string>) returns (idx: seq<int>)
    ensures FirstOfKey(DedupeFrom(queries, seen), queries, seen, idx)
    decreases |queries|
  {
    if queries == [] {
      idx := [];
    } else {
      var q := TrimSpace(queries[0]);
      if q == "" || Lower(q) in seen {
        var idx' := DedupeFromFirst(queries[1..], seen);
        idx := FirstOfKeyShift(DedupeFrom(queries[1..], seen), queries, seen, idx');
      } else {
        var seen' := seen + {Lower(q)};
        var idx' := DedupeFromFirst(queries[1..], seen');
        var shifted := FirstOfKeyShift(DedupeFrom(queries[1..], seen'), queries, seen', idx');
        FirstOfKeyCons(DedupeFrom(queries[1..], seen'), queries, seen, shifted);
        idx := [0] + shifted;
      }
    }
  }

  /** When some query is not blank, dedupeQueries returns trimmed,
      non-blank queries with pairwise different keys, each the first query
      of its key and in input order, and every non-blank query's key is
      among them; otherwise it returns the first query. */
  lemma DedupeQueriesShape(queries: seq<string>)
    ensures DistinctKeys(DedupeQueries(queries))
    ensures Covers(queries, {}, DedupeQueries(queries))
    ensures (exists k :: 0 <= k < |queries| && TrimSpace(queries[k]) != "") ==> Kept(DedupeQueries(queries), {})
    ensures (exists k :: 0 <= k < |queries| && TrimSpace(queries[k]) != "") ==>
      exists idx :: FirstOfKey(DedupeQueries(queries), queries, {}, idx)
    ensures (forall k :: 0 <= k < |queries| ==> TrimSpace(queries[k]) == "") && queries != [] ==>
      DedupeQueries(queries) == [queries[0]]
  {
    DedupeFromShape(queries, {});
    var out := DedupeFrom(queries, {});
    var idx := DedupeFromFirst(queries, {});
    if exists k :: 0 <= k < |queries| && TrimSpace(queries[k]) != "" {
      var k :| 0 <= k < |queries| && TrimSpace(queries[k]) != "";
      assert out != [];
      assert FirstOfKey(DedupeQueries(queries), queries, {}, idx);
    } else if out != [] {
      DedupeFromInputs(queries, {}, 0);
    }
  }

  /** Every kept query is the trimmed form of some input. */
  lemma {:induction false} DedupeFromInputs(queries: seq<string>, seen: set<string>, i: int)
    requires 0 <= i < |DedupeFrom(queries, seen)|
    ensures exists k :: 0 <= k < |queries| && DedupeFrom(queries, seen)[i] == TrimSpace(queries[k])
    decreases |queries|
  {
    var q := TrimSpace(queries[0]);
    var tail := queries[1..];
    if q == "" || Lower(q) in seen {
      DedupeFromInputs(tail, seen, i);
      var k :| 0 <= k < |tail| && DedupeFrom(tail, seen)[i] == TrimSpace(tail[k]);
      assert tail[k] == queries[k + 1];
    } else if i == 0 {
      assert DedupeFrom(queries, seen)[0] == TrimSpace(queries[0]);
    } else {
      var seen' := seen + {Lower(q)};
      DedupeFromInputs(tail, seen', i - 1);
      var k :| 0 <= k < |tail| && DedupeFrom(tail, seen')[i - 1] == TrimSpace(tail[k]);
      assert tail[k] == queries[k + 1];
    }
  }
}
