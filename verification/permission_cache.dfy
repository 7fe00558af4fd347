/** The dashboard's permission provider (apps/dashboard/src/auth/PermissionContext.tsx):
    a per-scope cache of permission codes in `localStorage`, refreshed from
    the server on every activation, with a `stale` flag when the server
    cannot be reached but a cached set exists. */
module PermissionCache {
  import opened Wrappers
  import opened JsonValues
  import opened Collections
  import opened Browser
  import SessionStore

  datatype Scope = Console | Platform

  function ScopeName(scope: Scope): string {
    match scope
    case Console => "console"
    case Platform => "platform"
  }

  const CachePrefix: string := "ragodesk.permissions."

  /** `ragodesk.permissions.<scope>` */
  function CacheKey(scope: Scope): (k: string)
    ensures |k| > |CachePrefix| && k[..|CachePrefix|] == CachePrefix
  {
    CachePrefix + ScopeName(scope)
  }

  /** Each scope has its own key, and none of them is a session-store key. */
  lemma CacheKeysSeparate(a: Scope, b: Scope)
    ensures CacheKey(a) == CacheKey(b) <==> a == b
    ensures CacheKey(a) != SessionStore.TokenKey && CacheKey(a) != SessionStore.TenantKey
  {
    var p := |CachePrefix|;
    if a != b {
      assert CacheKey(a)[p] != CacheKey(b)[p];
    }
    assert CacheKey(a)[8] == '.';
    assert SessionStore.TokenKey[8] == '_' && SessionStore.TenantKey[8] == '_';
  }

  /** `new Set(parsed)`: the array's elements without repeats, in order. */
  function AsSet(xs: seq<Json>): (r: seq<Json>)
    ensures NoDups(r) && forall x :: x in r <==> x in xs
  {
    Dedup(xs)
  }

  /** loadCachedPermissions: a missing or empty entry, text that does not
      parse, or JSON that is not an array all give the empty set; no path
      throws. */
  function LoadCached(items: map<string, string>, scope: Scope, codec: JsonCodec): (r: seq<Json>)
    ensures NoDups(r)
    ensures CacheKey(scope) !in items || items[CacheKey(scope)] == "" ==> r == []
    ensures !StoredArray(items, scope, codec) ==> r == []
    ensures StoredArray(items, scope, codec) ==>
              forall x :: x in r <==> x in codec.parse(items[CacheKey(scope)]).value.items
  {
    var key := CacheKey(scope);
    if key !in items || items[key] == "" then []
    else
      match codec.parse(items[key])
      case Some(JArray(xs)) => AsSet(xs)
      case _ => []
  }

  /** The scope's entry is present, non-empty and parses as a JSON array. */
  predicate StoredArray(items: map<string, string>, scope: Scope, codec: JsonCodec) {
    CacheKey(scope) in items && items[CacheKey(scope)] != "" && codec.parse(items[CacheKey(scope)]).Some? &&
    codec.parse(items[CacheKey(scope)]).value.JArray?
  }

  /** saveCachedPermissions writes `JSON.stringify(Array.from(permissions))`. */
  function SavedText(permissions: seq<Json>, codec: JsonCodec): string {
    codec.stringify(JArray(permissions))
  }

  /** What is saved for a scope loads back as the same set. */
  lemma SaveThenLoad(items: map<string, string>, scope: Scope, permissions: seq<Json>, codec: JsonCodec)
    requires Faithful(codec) && NoDups(permissions)
    ensures LoadCached(items[CacheKey(scope) := SavedText(permissions, codec)], scope, codec) == permissions
  {
    assert codec.parse(codec.stringify(JArray(permissions))) == Some(JArray(permissions));
    DedupOfNoDups(permissions);
  }

  /** Writing one scope's cache never changes what another scope loads. */
  lemma SaveIsolated(items: map<string, string>, saved: Scope, other: Scope, text: string, codec: JsonCodec)
    requires saved != other
    ensures LoadCached(items[CacheKey(saved) := text], other, codec) == LoadCached(items, other, codec)
  {
    CacheKeysSeparate(saved, other);
  }

  /** The list endpoint an activation calls. */
  datatype Loader = ConsoleListPermissions | PlatformListPermissions

  function LoaderFor(scope: Scope): (l: Loader)
    ensures l == PlatformListPermissions <==> scope == Platform
  {
    if scope == Platform then PlatformListPermissions else ConsoleListPermissions
  }

  /** What an activation's closure captured: its scope and whether the
      cached set it started from was non-empty. */
  datatype Activation = Activation(scope: Scope, cachedNonEmpty: bool)

  /** What `usePermissions` hands out. */
  datatype PermissionView = PermissionView(
    scope: Scope, granted: set<string>, loading: bool, error: Option<string>, stale: bool)

  /** `new Set(codes)` of the response's permission codes. */
  function CodeSet(codes: seq<string>): (r: seq<Json>)
    ensures NoDups(r)
    ensures forall v :: v in r ==> v.JString?
    ensures forall c :: JString(c) in r <==> c in codes
  {
    var values := Map(codes, (c: string) => JString(c));
    assert forall c :: c in codes <==> JString(c) in values by {
      forall c
        ensures c in codes <==> JString(c) in values
      {
        if c in codes {
          var i :| 0 <= i < |codes| && codes[i] == c;
          assert values[i] == JString(c);
        }
      }
    }
    AsSet(values)
  }

  /** The permission codes a set of decoded values grants (`Set.has` on a
      string only finds strings). */
  function Granted(values: seq<Json>): (g: set<string>)
    ensures forall c :: c in g <==> JString(c) in values
  {
    set v | v in values && v.JString? :: v.s
  }

  /** `usePermissions` outside a provider. */
  function NoProvider(): (v: PermissionView)
    ensures v.scope == Console && v.granted == {} && !v.loading && v.error == None && !v.stale
  {
    PermissionView(Console, {}, false, None, false)
  }

  class PermissionProvider {
    const codec: JsonCodec
    const storage: LocalStorage
    var scope: Scope
    var permissions: seq<Json>
    var loading: bool
    var error: Option<string>
    var stale: bool
    var refreshIndex: nat
    /** Activations whose `active` flag is still true. */
    var live: map<nat, Activation>
    var nextRun: nat
    var effectRun: Option<nat>
    /** The loaders called so far, in order. */
    var calls: seq<Loader>

    ghost predicate Valid()
      reads this
    {
      (forall id :: id in live ==> id < nextRun) && (effectRun.Some? ==> effectRun.value < nextRun)
    }

    /** The first render: permissions from the cache, loading. */
    constructor (store: LocalStorage, jsonCodec: JsonCodec, initialScope: Scope)
      ensures Valid()
      ensures storage == store && codec == jsonCodec && scope == initialScope
      ensures permissions == LoadCached(store.items, initialScope, jsonCodec)
      ensures loading && error == None && !stale && refreshIndex == 0
      ensures live == map[] && effectRun == None && calls == []
    {
      storage := store;
      codec := jsonCodec;
      scope := initialScope;
      permissions := LoadCached(store.items, initialScope, jsonCodec);
      loading := true;
      error := None;
      stale := false;
      refreshIndex := 0;
      live := map[];
      nextRun := 0;
      effectRun := None;
      calls := [];
    }

    /** The effect on `[scope, refreshIndex]`: cancel the previous
        activation, reset to the cached set and call the scope's loader. */
    method Activate()
      requires Valid()
      modifies this
      ensures Valid()
      ensures old(effectRun).Some? ==> old(effectRun).value !in live
      ensures effectRun == Some(old(nextRun)) && old(nextRun) in live
      ensures var cached := LoadCached(storage.items, scope, codec);
              permissions == cached && live[old(nextRun)] == Activation(scope, |cached| > 0)
      ensures loading && error == None && !stale
      ensures calls == old(calls) + [LoaderFor(scope)]
      ensures scope == old(scope) && refreshIndex == old(refreshIndex)
    {
      if effectRun.Some? {
        live := live - {effectRun.value};
      }
      var id := nextRun;
      nextRun := nextRun + 1;
      var cached := LoadCached(storage.items, scope, codec);
      loading := true;
      error := None;
      stale := false;
      permissions := cached;
      live := live[id := Activation(scope, |cached| > 0)];
      calls := calls + [LoaderFor(scope)];
      effectRun := Some(id);
    }

    method Mount()
      requires Valid()
      modifies this
      ensures Valid()
      ensures effectRun == Some(old(nextRun)) && loading && error == None && !stale
      ensures permissions == LoadCached(storage.items, scope, codec)
      ensures old(nextRun) in live && live[old(nextRun)] == Activation(scope, |permissions| > 0)
      ensures calls == old(calls) + [LoaderFor(scope)]
      ensures scope == old(scope) && refreshIndex == old(refreshIndex)
    {
      Activate();
    }

    /** `refresh`: bumping the index re-runs the effect. */
    method Refresh()
      requires Valid()
      modifies this
      ensures Valid()
      ensures refreshIndex == old(refreshIndex) + 1 && scope == old(scope)
      ensures old(effectRun).Some? ==> old(effectRun).value !in live
      ensures effectRun == Some(old(nextRun)) && loading && error == None && !stale
      ensures permissions == LoadCached(storage.items, scope, codec)
      ensures calls == old(calls) + [LoaderFor(scope)]
    {
      refreshIndex := refreshIndex + 1;
      Activate();
    }

    /** A render with a different `scope` prop re-runs the effect. */
    method ChangeScope(newScope: Scope)
      requires Valid()
      modifies this
      ensures Valid()
      ensures scope == newScope
      ensures newScope == old(scope) ==> unchanged(this)
      ensures newScope != old(scope) ==>
        (old(effectRun).Some? ==> old(effectRun).value !in live) &&
        permissions == LoadCached(storage.items, newScope, codec) &&
        calls == old(calls) + [LoaderFor(newScope)] && loading && error == None && !stale
    {
      if newScope == scope {
        return;
      }
      scope := newScope;
      Activate();
    }

    method Unmount()
      modifies this
      ensures old(effectRun).Some? ==> live == old(live) - {old(effectRun).value}
      ensures old(effectRun).None? ==> live == old(live)
      ensures permissions == old(permissions) && loading == old(loading) && error == old(error) && stale == old(stale)
    {
      if effectRun.Some? {
        live := live - {effectRun.value};
      }
    }

    /** The loader's success: the response codes replace the permissions
        wholesale and are saved under the activation's scope, even when
        empty; the set is no longer stale. A cancelled activation changes
        nothing. */
    method Succeed(id: nat, codes: seq<string>)
      modifies this, storage
      ensures id !in old(live) ==> unchanged(this) && unchanged(storage)
      ensures id in old(live) ==>
        var next := CodeSet(codes);
        permissions == next && (forall c :: c in Granted(permissions) <==> c in codes) &&
        storage.items == old(storage.items)[CacheKey(old(live)[id].scope) := SavedText(next, codec)] &&
        !stale && loading == old(loading) && error == old(error) && live == old(live)
      ensures scope == old(scope) && effectRun == old(effectRun) && nextRun == old(nextRun)
    {
      if id !in live {
        return;
      }
      var next := CodeSet(codes);
      permissions := next;
      storage.SetItem(CacheKey(live[id].scope), SavedText(next, codec));
      stale := false;
    }

    /** The loader's failure: the error is shown, the cached set stays, and
        it is stale iff it was non-empty. */
    method Fail(id: nat, message: string)
      modifies this
      ensures id !in old(live) ==> unchanged(this)
      ensures id in old(live) ==>
        error == Some(message) && stale == old(live)[id].cachedNonEmpty &&
        permissions == old(permissions) && loading == old(loading) && live == old(live)
      ensures scope == old(scope) && effectRun == old(effectRun) && nextRun == old(nextRun)
    {
      if id !in live {
        return;
      }
      error := Some(message);
      stale := live[id].cachedNonEmpty;
    }

    /** The `finally` handler. */
    method Settle(id: nat)
      modifies this
      ensures id !in old(live) ==> unchanged(this)
      ensures id in old(live) ==>
        !loading && permissions == old(permissions) && error == old(error) && stale == old(stale) && live == old(live)
    {
      if id !in live {
        return;
      }
      loading := false;
    }

    function View(): (v: PermissionView)
      reads this
      ensures v.scope == scope && v.loading == loading && v.error == error && v.stale == stale
      ensures forall c :: c in v.granted <==> JString(c) in permissions
    {
      PermissionView(scope, Granted(permissions), loading, error, stale)
    }
  }

  /** A failed refresh keeps what was cached: after mounting on a cache that
      holds a saved set, a failing loader leaves that set granted and marks
      it stale. */
  method FailureKeepsCache(store: LocalStorage, codec: JsonCodec, scope: Scope, saved: seq<string>)
    returns (provider: PermissionProvider)
    requires Faithful(codec) && saved != []
    modifies store
    ensures provider.View().stale && !provider.View().loading && provider.View().error == Some("offline")
    ensures forall c :: c in provider.View().granted <==> c in saved
  {
    var values := CodeSet(saved);
    assert JString(saved[0]) in values;
    ghost var before := store.items;
    store.SetItem(CacheKey(scope), SavedText(values, codec));
    SaveThenLoad(before, scope, values, codec);
    assert LoadCached(store.items, scope, codec) == values;
    provider := new PermissionProvider(store, codec, scope);
    provider.Mount();
    assert provider.permissions == values;
    var id := provider.effectRun.value;
    provider.Fail(id, "offline");
    provider.Settle(id);
  }
}
