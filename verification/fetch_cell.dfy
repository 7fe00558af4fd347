/** The `useRequest` hook of the dashboard (apps/dashboard/src/hooks/useRequest.ts):
    a fetch cell that shows a fallback value, records where its data came
    from, and discards the results of runs that have been cleaned up.

    Each call of `run` that reaches the fetcher gets a run number; the
    closure's `alive` flag is "the run number is still in `live`". A run's
    promise handlers are the methods Resolve, Reject and Settle, which the
    environment calls with that run number once the fetcher's promise
    settles. */
module FetchCell {
  import opened Wrappers

  /** `'api' | 'fallback' | 'empty'` */
  datatype Provenance = Api | FromFallback | Empty

  /** What the hook hands to the component (without `reload`). */
  datatype Snapshot<T> = Snapshot(data: T, loading: bool, error: Option<string>, source: Provenance)

  class RequestCell<T> {
    // React state cells
    var data: T
    var loading: bool
    var error: Option<string>
    var source: Provenance
    // options of the latest render; `run` closes over them
    var enabled: bool
    var allowFallback: bool
    // fallbackRef.current
    var fallback: T
    /** Runs whose `alive` flag is still true, each with the `allowFallback`
        its closure captured. */
    var live: map<nat, bool>
    var nextRun: nat
    /** The run started by the mounted effect, whose cleanup cancels it. */
    var effectRun: Option<nat>
    /** How many times the fetcher has been called. */
    var fetches: nat

    ghost predicate Valid()
      reads this
    {
      (forall id :: id in live ==> id < nextRun) &&
      (effectRun.Some? ==> effectRun.value < nextRun)
    }

    /** The first render, before any effect: the `useState` initial values.
        `enabled` is `options.enabled !== false`; `allowFallback` defaults
        to false. */
    constructor (fallbackValue: T, enabledOption: Option<bool>, allowFallbackOption: Option<bool>)
      ensures Valid()
      ensures data == fallbackValue && !loading && error == None && source == Empty
      ensures enabled == (enabledOption != Some(false))
      ensures allowFallback == allowFallbackOption.GetOr(false)
      ensures fallback == fallbackValue && live == map[] && effectRun == None && fetches == 0
    {
      data := fallbackValue;
      loading := false;
      error := None;
      source := Empty;
      enabled := enabledOption != Some(false);
      allowFallback := allowFallbackOption.GetOr(false);
      fallback := fallbackValue;
      live := map[];
      nextRun := 0;
      effectRun := None;
      fetches := 0;
    }

    /** `run`: when disabled, reset to the fallback without fetching and
        return no cancel function; otherwise start a live fetch with
        loading set and the error cleared. */
    method Run() returns (id: Option<nat>)
      requires Valid()
      modifies this
      ensures Valid()
      ensures enabled == old(enabled) && allowFallback == old(allowFallback)
      ensures fallback == old(fallback) && effectRun == old(effectRun)
      ensures !old(enabled) ==>
        id == None && fetches == old(fetches) && live == old(live) && nextRun == old(nextRun) &&
        data == old(fallback) && !loading && error == None && source == Empty
      ensures old(enabled) ==>
        id == Some(old(nextRun)) && old(nextRun) !in old(live) &&
        fetches == old(fetches) + 1 && nextRun == old(nextRun) + 1 &&
        live == old(live)[old(nextRun) := old(allowFallback)] &&
        loading && error == None && data == old(data) && source == old(source)
    {
      if !enabled {
        loading := false;
        error := None;
        source := Empty;
        data := fallback;
        id := None;
        return;
      }
      id := Some(nextRun);
      live := live[nextRun := allowFallback];
      nextRun := nextRun + 1;
      loading := true;
      error := None;
      fetches := fetches + 1;
    }

    /** The cleanup returned by `run`: `alive = false`. */
    method Cancel(id: nat)
      modifies this
      ensures live == old(live) - {id}
      ensures data == old(data) && loading == old(loading) && error == old(error) && source == old(source)
      ensures enabled == old(enabled) && allowFallback == old(allowFallback) && fallback == old(fallback)
      ensures nextRun == old(nextRun) && effectRun == old(effectRun) && fetches == old(fetches)
    {
      live := live - {id};
    }

    /** The data effect: cancel the previous effect's run (if it returned a
        cancel function), then run again. */
    method Activate()
      requires Valid()
      modifies this
      ensures Valid()
      ensures old(effectRun).Some? ==> old(effectRun).value !in live
      ensures !old(enabled) ==>
        effectRun == None && data == old(fallback) && !loading && error == None && source == Empty &&
        fetches == old(fetches)
      ensures old(enabled) ==>
        effectRun == Some(old(nextRun)) && old(nextRun) in live && live[old(nextRun)] == old(allowFallback) &&
        loading && error == None && fetches == old(fetches) + 1
      ensures enabled == old(enabled) && allowFallback == old(allowFallback) && fallback == old(fallback)
    {
      if effectRun.Some? {
        Cancel(effectRun.value);
      }
      var id := Run();
      effectRun := id;
    }

    /** Mounting runs the effect once. */
    method Mount()
      requires Valid()
      modifies this
      ensures Valid()
      ensures !old(enabled) ==>
        effectRun == None && fetches == old(fetches) && data == old(fallback) && source == Empty &&
        !loading && error == None
      ensures old(enabled) ==>
        effectRun == Some(old(nextRun)) && old(nextRun) in live && loading && error == None &&
        fetches == old(fetches) + 1
      ensures enabled == old(enabled) && allowFallback == old(allowFallback) && fallback == old(fallback)
    {
      Activate();
    }

    /** A later render. The fallback ref always takes the new fallback; the
        data effect re-runs when `run` changed identity (enabled or
        allowFallback changed) or a dependency changed. */
    method Rerender(fallbackValue: T, enabledOption: Option<bool>, allowFallbackOption: Option<bool>, depsChanged: bool)
      requires Valid()
      modifies this
      ensures Valid()
      ensures fallback == fallbackValue
      ensures enabled == (enabledOption != Some(false))
      ensures allowFallback == allowFallbackOption.GetOr(false)
      ensures var rerun := depsChanged || enabled != old(enabled) || allowFallback != old(allowFallback);
              (rerun ==> old(effectRun).Some? ==> old(effectRun).value !in live) &&
              (rerun && !enabled ==>
                 effectRun == None && fetches == old(fetches) && data == fallback && !loading &&
                 error == None && source == Empty) &&
              (rerun && enabled ==>
                 effectRun == Some(old(nextRun)) && old(nextRun) in live && loading && error == None &&
                 fetches == old(fetches) + 1) &&
              (!rerun ==> data == old(data) && loading == old(loading) && error == old(error) &&
                          source == old(source) && live == old(live) && effectRun == old(effectRun) &&
                          fetches == old(fetches))
    {
      var newEnabled := enabledOption != Some(false);
      var newAllow := allowFallbackOption.GetOr(false);
      var rerun := depsChanged || newEnabled != enabled || newAllow != allowFallback;
      fallback := fallbackValue;
      enabled := newEnabled;
      allowFallback := newAllow;
      if rerun {
        Activate();
      }
    }

    /** Unmounting runs the effect's cleanup. */
    method Unmount()
      modifies this
      ensures old(effectRun).Some? ==> live == old(live) - {old(effectRun).value}
      ensures old(effectRun).None? ==> live == old(live)
      ensures data == old(data) && loading == old(loading) && error == old(error) && source == old(source)
    {
      if effectRun.Some? {
        Cancel(effectRun.value);
      }
    }

    /** `reload`: nothing when disabled; otherwise a new run whose cancel
        function is dropped, so earlier in-flight runs stay live. */
    method Reload()
      requires Valid()
      modifies this
      ensures Valid()
      ensures !old(enabled) ==> unchanged(this)
      ensures enabled == old(enabled) && allowFallback == old(allowFallback) && fallback == old(fallback)
      ensures old(enabled) ==>
        live == old(live)[old(nextRun) := old(allowFallback)] && effectRun == old(effectRun) &&
        loading && error == None && fetches == old(fetches) + 1
    {
      if !enabled {
        return;
      }
      var _ := Run();
    }

    /** The `then` handler of run `id`. */
    method Resolve(id: nat, response: T)
      modifies this
      ensures id !in old(live) ==> unchanged(this)
      ensures id in old(live) ==>
        data == response && source == Api &&
        loading == old(loading) && error == old(error) && live == old(live)
      ensures enabled == old(enabled) && fallback == old(fallback) && nextRun == old(nextRun) && effectRun == old(effectRun)
    {
      if id !in live {
        return;
      }
      data := response;
      source := Api;
    }

    /** The `catch` handler of run `id`: data falls back to the current
        fallback ref, provenance follows the run's captured allowFallback. */
    method Reject(id: nat, message: string)
      modifies this
      ensures id !in old(live) ==> unchanged(this)
      ensures id in old(live) ==>
        data == old(fallback) && error == Some(message) &&
        source == (if old(live)[id] then FromFallback else Empty) &&
        loading == old(loading) && live == old(live)
      ensures enabled == old(enabled) && fallback == old(fallback) && nextRun == old(nextRun) && effectRun == old(effectRun)
    {
      if id !in live {
        return;
      }
      data := fallback;
      source := if live[id] then FromFallback else Empty;
      error := Some(message);
    }

    /** The `finally` handler of run `id`. */
    method Settle(id: nat)
      modifies this
      ensures id !in old(live) ==> unchanged(this)
      ensures id in old(live) ==>
        !loading && data == old(data) && error == old(error) && source == old(source) && live == old(live)
      ensures data == old(data) && source == old(source)
      ensures enabled == old(enabled) && fallback == old(fallback) && nextRun == old(nextRun) && effectRun == old(effectRun)
    {
      if id !in live {
        return;
      }
      loading := false;
    }

    /** The returned state: loading and error are hidden while disabled. */
    function Current(): (s: Snapshot<T>)
      reads this
      ensures !enabled ==> !s.loading && s.error == None
      ensures enabled ==> s.loading == loading && s.error == error
      ensures s.data == data && s.source == source
    {
      Snapshot(data, enabled && loading, if enabled then error else None, source)
    }
  }

  /** A run cancelled by a re-render cannot overwrite the data of the run
      that replaced it, whichever order their results arrive in: with
      `firstLate` the cancelled run answers after the current one,
      otherwise before it. */
  method StaleResultIgnored<T>(fallbackValue: T, first: T, second: T, firstLate: bool) returns (cell: RequestCell<T>)
    ensures cell.data == second && cell.source == Api && !cell.loading
  {
    cell := new RequestCell(fallbackValue, None, None);
    cell.Mount();
    var firstRun := cell.effectRun.value;
    cell.Rerender(fallbackValue, None, None, true);
    var secondRun := cell.effectRun.value;
    if firstLate {
      cell.Resolve(secondRun, second);
      cell.Settle(secondRun);
      cell.Resolve(firstRun, first);
      cell.Settle(firstRun);
    } else {
      cell.Resolve(firstRun, first);
      cell.Settle(firstRun);
      cell.Resolve(secondRun, second);
      cell.Settle(secondRun);
    }
  }

  /** A disabled cell never calls the fetcher, however it is mounted,
      reloaded or re-rendered while disabled. */
  method DisabledNeverFetches<T>(fallbackValue: T, depsChanged: bool) returns (cell: RequestCell<T>)
    ensures cell.fetches == 0 && cell.data == fallbackValue && cell.source == Empty
    ensures !cell.Current().loading && cell.Current().error == None
  {
    cell := new RequestCell(fallbackValue, Some(false), None);
    cell.Mount();
    cell.Reload();
    cell.Rerender(fallbackValue, Some(false), Some(true), depsChanged);
  }
}
