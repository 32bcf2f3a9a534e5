/** Scale expectations: the creations and deletions a controller still waits to see in its cache. */
module Expectations {
  import opened Kube

  datatype Action = Create | Delete

  datatype Event =
    | Expected(key: string, action: Action, name: string)
    | Observed(key: string, action: Action, name: string)
    | Forgotten(key: string)

  /** The reference meaning: an expectation with no later observation of it and no later clearing of its key. */
  ghost predicate Awaited(log: seq<Event>, key: string, action: Action, name: string) {
    exists i | 0 <= i < |log| :: log[i] == Expected(key, action, name) && Untouched(log, i, key, action, name)
  }

  ghost predicate Untouched(log: seq<Event>, i: nat, key: string, action: Action, name: string) {
    forall j | i < j < |log| :: log[j] != Observed(key, action, name) && log[j] != Forgotten(key)
  }

  lemma AwaitedStep(log: seq<Event>, e: Event, key: string, action: Action, name: string)
    ensures Awaited(log + [e], key, action, name)
       <==> || e == Expected(key, action, name)
            || (&& Awaited(log, key, action, name)
                && e != Observed(key, action, name) && e != Forgotten(key))
  {
    var after := log + [e];
    if e == Expected(key, action, name) {
      assert after[|log|] == e && Untouched(after, |log|, key, action, name);
    } else {
      if Awaited(log, key, action, name) && e != Observed(key, action, name) && e != Forgotten(key) {
        var i :| 0 <= i < |log| && log[i] == Expected(key, action, name) && Untouched(log, i, key, action, name);
        assert after[i] == log[i] && Untouched(after, i, key, action, name);
      }
      if Awaited(after, key, action, name) {
        var i :| 0 <= i < |after| && after[i] == Expected(key, action, name) && Untouched(after, i, key, action, name);
        assert after[|log|] == e;
        forall j | i < j < |log| ensures log[j] != Observed(key, action, name) && log[j] != Forgotten(key) {
          assert after[j] == log[j];
        }
        assert Untouched(log, i, key, action, name);
      }
    }
  }

  /** An entry of the controller cache. The timestamp is zero until the entry is first found unsatisfied. */
  datatype Entry = Entry(objs: map<Action, set<string>>, firstUnsatisfied: Time)

  type Cache = map<string, Entry>

  function NamesIn(cache: Cache, key: string, action: Action): set<string> {
    if key in cache && action in cache[key].objs then cache[key].objs[action] else {}
  }

  /** The eviction invariant: an entry that is kept waits for something. */
  ghost predicate NoIdleEntry(cache: Cache) {
    forall key | key in cache :: exists a | a in cache[key].objs :: cache[key].objs[a] != {}
  }

  /** The cache holds exactly the awaited names. */
  ghost predicate Linked(cache: Cache, log: seq<Event>) {
    forall key, action, name :: name in NamesIn(cache, key, action) <==> Awaited(log, key, action, name)
  }

  /** The names an event leaves awaited for one key and action. */
  function After(e: Event, key: string, action: Action, names: set<string>): set<string> {
    match e
    case Expected(k, a, n) => if k == key && a == action then names + {n} else names
    case Observed(k, a, n) => if k == key && a == action then names - {n} else names
    case Forgotten(k) => if k == key then {} else names
  }

  lemma LinkedStep(before: Cache, log: seq<Event>, e: Event, after: Cache)
    requires Linked(before, log)
    requires forall key, action :: NamesIn(after, key, action) == After(e, key, action, NamesIn(before, key, action))
    ensures Linked(after, log + [e])
  {
    forall key, action, name
      ensures name in NamesIn(after, key, action) <==> Awaited(log + [e], key, action, name)
    {
      AwaitedStep(log, e, key, action, name);
      assert NamesIn(after, key, action) == After(e, key, action, NamesIn(before, key, action));
    }
  }

  /** One name less under a key: the entry is evicted when nothing is left to wait for. */
  lemma NamesObserved(before: Cache, after: Cache, key: string, action: Action, name: string)
    requires NoIdleEntry(before) && key in before && action in before[key].objs
    requires
      && var objs := before[key].objs[action := before[key].objs[action] - {name}];
      && if exists a | a in objs.Keys :: objs[a] != {} then after == before[key := before[key].(objs := objs)]
         else after == map k | k in before && k != key :: before[k]
    ensures NoIdleEntry(after)
    ensures forall k, a :: NamesIn(after, k, a) == After(Observed(key, action, name), k, a, NamesIn(before, k, a))
  {
    var objs := before[key].objs[action := before[key].objs[action] - {name}];
    if !(exists a | a in objs.Keys :: objs[a] != {}) {
      assert forall a | a in before[key].objs.Keys :: objs[a] == {};
    }
  }

  class ScaleExpectations {
    var controllerCache: Cache
    ghost var log: seq<Event>

    ghost predicate Valid()
      reads this
    {
      NoIdleEntry(controllerCache) && Linked(controllerCache, log)
    }

    ghost function Names(key: string, action: Action): set<string>
      reads this
    {
      NamesIn(controllerCache, key, action)
    }

    constructor ()
      ensures Valid() && log == []
    {
      controllerCache := map[];
      log := [];
    }

    method GetExpectations(key: string) returns (r: Option<map<Action, set<string>>>)
      requires Valid()
      ensures r.None? <==> forall action, name :: !Awaited(log, key, action, name)
      ensures r.Some? ==>
        forall action, name :: action in r.value && name in r.value[action] <==> Awaited(log, key, action, name)
    {
      if key !in controllerCache {
        assert forall action, name :: name !in NamesIn(controllerCache, key, action);
        return None;
      }
      ghost var a :| a in controllerCache[key].objs && controllerCache[key].objs[a] != {};
      ghost var name :| name in controllerCache[key].objs[a];
      assert name in NamesIn(controllerCache, key, a);
      assert forall action, name :: name in NamesIn(controllerCache, key, action)
               <==> action in controllerCache[key].objs && name in controllerCache[key].objs[action];
      return Some(controllerCache[key].objs);
    }

    method ExpectScale(key: string, action: Action, name: string)
      requires Valid()
      modifies this
      ensures Valid() && log == old(log) + [Expected(key, action, name)]
      ensures forall k, a :: Names(k, a) == After(Expected(key, action, name), k, a, old(Names(k, a)))
    {
      var entry := if key in controllerCache then controllerCache[key] else Entry(map[], 0);
      var names := if action in entry.objs then entry.objs[action] + {name} else {name};
      controllerCache := controllerCache[key := entry.(objs := entry.objs[action := names])];
      log := log + [Expected(key, action, name)];
      assert name in controllerCache[key].objs[action];
      LinkedStep(old(controllerCache), old(log), Expected(key, action, name), controllerCache);
    }

    method ObserveScale(key: string, action: Action, name: string)
      requires Valid()
      modifies this
      ensures Valid() && log == old(log) + [Observed(key, action, name)]
      ensures forall k, a :: Names(k, a) == After(Observed(key, action, name), k, a, old(Names(k, a)))
    {
      log := log + [Observed(key, action, name)];
      if key in controllerCache && action in controllerCache[key].objs {
        var entry := controllerCache[key];
        var objs := entry.objs[action := entry.objs[action] - {name}];
        if exists a | a in objs.Keys :: objs[a] != {} {
          controllerCache := controllerCache[key := entry.(objs := objs)];
        } else {
          controllerCache := map k | k in controllerCache && k != key :: controllerCache[k];
        }
        NamesObserved(old(controllerCache), controllerCache, key, action, name);
      }
      LinkedStep(old(controllerCache), old(log), Observed(key, action, name), controllerCache);
    }

    /** On an unsatisfied key: the waiting time, and one action with the names it waits for. */
    method SatisfiedExpectations(key: string, now: Time)
      returns (satisfied: bool, elapsed: int, dirty: Option<(Action, set<string>)>)
      requires Valid()
      modifies this
      ensures Valid() && log == old(log)
      ensures forall k, a :: Names(k, a) == old(Names(k, a))
      ensures satisfied <==> forall a, n :: !Awaited(log, key, a, n)
      ensures satisfied <==> Names(key, Create) == {} && Names(key, Delete) == {}
      ensures satisfied ==> elapsed == 0 && dirty == None
      ensures !satisfied ==>
        && key in controllerCache
        && dirty.Some? && dirty.value.1 != {} && dirty.value.1 == Names(key, dirty.value.0)
        && elapsed == now - controllerCache[key].firstUnsatisfied
        && key in old(controllerCache)
        && var first := old(controllerCache)[key].firstUnsatisfied;
           controllerCache[key].firstUnsatisfied == if first == 0 then now else first
    {
      if key !in controllerCache {
        satisfied, elapsed, dirty := true, 0, None;
        assert forall a, n :: n !in NamesIn(controllerCache, key, a);
        return;
      }
      var entry := controllerCache[key];
      var todo := entry.objs.Keys;
      while todo != {}
        invariant todo <= entry.objs.Keys
        invariant forall a | a in entry.objs.Keys - todo :: entry.objs[a] == {}
        decreases todo
      {
        var a :| a in todo;
        if entry.objs[a] != {} {
          if entry.firstUnsatisfied == 0 {
            entry := entry.(firstUnsatisfied := now);
            controllerCache := controllerCache[key := entry];
          }
          satisfied, elapsed, dirty := false, now - entry.firstUnsatisfied, Some((a, entry.objs[a]));
          ghost var n :| n in entry.objs[a];
          assert n in NamesIn(controllerCache, key, a);
          assert Names(key, a) == entry.objs[a] && (a == Create || a == Delete);
          assert forall k, b :: NamesIn(controllerCache, k, b) == old(NamesIn(controllerCache, k, b));
          return;
        }
        todo := todo - {a};
      }
      assert false;
      satisfied, elapsed, dirty := true, 0, None;
    }

    method DeleteExpectations(key: string)
      requires Valid()
      modifies this
      ensures Valid() && log == old(log) + [Forgotten(key)]
      ensures forall k, a :: Names(k, a) == After(Forgotten(key), k, a, old(Names(k, a)))
    {
      controllerCache := map k | k in controllerCache && k != key :: controllerCache[k];
      log := log + [Forgotten(key)];
      LinkedStep(old(controllerCache), old(log), Forgotten(key), controllerCache);
    }
  }
}
