/** Object caches: weak entries that any number of threads look up and clean up in phases, and the
    expirator, whose time buckets keep objects alive for a guaranteed time. */
module ObjectsCache {
  import opened Text

  type Key = string
  type Obj = nat

  /** Entries of this key are never stored. */
  const DEFAULT_KEY: Key := ""

  /** Weak references; None is a null one. */
  type Cache = map<Key, Option<Obj>>

  /** Objects kept alive, by the time in milliseconds until which they are. */
  type Buckets = map<int, set<Option<Obj>>>

  // ---- What each locked section does ----

  /** toStrongRef(): the object, if it is still alive. */
  function Strong(weak: Option<Obj>, alive: set<Obj>): Option<Obj> {
    if weak.Some? && weak.value in alive then weak else None
  }

  /** The live object stored under `key`. */
  function Current(cache: Cache, alive: set<Obj>, key: Key): Option<Obj> {
    if key in cache then Strong(cache[key], alive) else None
  }

  /** An addition answered by the object that is already there. */
  predicate Kept(cache: Cache, alive: set<Obj>, key: Key, overwrite: bool) {
    !overwrite && Current(cache, alive, key).Some?
  }

  function Added(cache: Cache, alive: set<Obj>, key: Key, made: Option<Obj>, overwrite: bool): Cache {
    if Kept(cache, alive, key, overwrite) then cache else cache[key := made]
  }

  function AddResult(cache: Cache, alive: set<Obj>, key: Key, made: Option<Obj>, overwrite: bool): Option<Obj> {
    if Kept(cache, alive, key, overwrite) then Current(cache, alive, key) else made
  }

  /** `x` is stored under the key and alive. */
  predicate Holds(cache: Cache, alive: set<Obj>, key: Key, x: Obj) { key in cache && cache[key] == Some(x) && x in alive }

  /** An addition that may not overwrite answers with the live object that is there; any other stores what
      was made and answers with it, also over a live object. */
  lemma AddAnswers(cache: Cache, alive: set<Obj>, key: Key, made: Option<Obj>, overwrite: bool, x: Obj)
    ensures !overwrite && Holds(cache, alive, key, x) ==>
              AddResult(cache, alive, key, made, overwrite) == Some(x) && Added(cache, alive, key, made, overwrite) == cache
    ensures overwrite || (forall y :: !Holds(cache, alive, key, y)) ==>
              AddResult(cache, alive, key, made, overwrite) == made
              && Added(cache, alive, key, made, overwrite) == cache[key := made]
  {
    if key in cache && cache[key].Some? {
      assert Holds(cache, alive, key, cache[key].value) <==> cache[key].value in alive;
    }
  }

  /** What an addition answers with is what the cache answers with from then on, as long as it lives. */
  lemma AddedIsCurrent(cache: Cache, alive: set<Obj>, key: Key, made: Option<Obj>, overwrite: bool, later: set<Obj>)
    ensures var result := AddResult(cache, alive, key, made, overwrite);
            result.Some? && result.value in later ==>
              Current(Added(cache, alive, key, made, overwrite), later, key) == result
  {
  }

  function CleanedUp(cache: Cache, alive: set<Obj>, key: Key): Cache {
    if key in cache && Current(cache, alive, key).None? then cache - {key} else cache
  }

  /** The bucket for an expiration time: rounded down to five seconds, then five seconds later. */
  function BucketOf(expiration: int): (bucket: int)
    ensures expiration < bucket <= expiration + 5000 && bucket % 5000 == 0
  {
    expiration / 5000 * 5000 + 5000
  }

  function Inserted(buckets: Buckets, bucket: int, o: Option<Obj>): Buckets {
    buckets[bucket := (if bucket in buckets then buckets[bucket] else {}) + {o}]
  }

  function LaterThan(buckets: Buckets, now: int): Buckets {
    map b | b in buckets && b > now :: buckets[b]
  }

  /** The weak cache. Each method is one locked section, or a call that is one; `alive` holds the
      objects with a strong reference at that moment. */
  class WeakCache {
    var cache: Cache

    constructor ()
      ensures cache == map[]
    {
      cache := map[];
    }

    method AddPrivate(key: Key, creator: () -> Option<Obj>, overwrite: bool, alive: set<Obj>)
      returns (result: Option<Obj>, called: bool)
      modifies this
      ensures called <==> !Kept(old(cache), alive, key, overwrite)
      ensures result == AddResult(old(cache), alive, key, creator(), overwrite)
      ensures cache == Added(old(cache), alive, key, creator(), overwrite)
    {
      called := false;
      if !overwrite && key in cache {
        var current := Strong(cache[key], alive);
        if current.Some? {
          return current, called;
        }
      }
      var made := creator();
      called := true;
      cache := cache[key := made];
      result := made;
    }

    /** add() of an object; a null object or the default key is passed through. */
    method Add(key: Key, o: Option<Obj>, overwrite: bool, alive: set<Obj>) returns (result: Option<Obj>)
      modifies this
      ensures o.None? || key == DEFAULT_KEY ==> result == o && cache == old(cache)
      ensures o.Some? && key != DEFAULT_KEY ==>
                && result == AddResult(old(cache), alive, key, o, overwrite)
                && cache == Added(old(cache), alive, key, o, overwrite)
    {
      if o.None? || key == DEFAULT_KEY {
        return o;
      }
      var added, _ := AddPrivate(key, () => o, overwrite, alive);
      result := added;
    }

    /** add() with a creator, which is called only if no live object is there. */
    method AddCreated(key: Key, creator: () -> Option<Obj>, alive: set<Obj>)
      returns (result: Option<Obj>, called: bool)
      modifies this
      ensures key == DEFAULT_KEY ==> called && result == creator() && cache == old(cache)
      ensures key != DEFAULT_KEY ==>
                && (called <==> !Kept(old(cache), alive, key, false))
                && result == AddResult(old(cache), alive, key, creator(), false)
                && cache == Added(old(cache), alive, key, creator(), false)
    {
      if key == DEFAULT_KEY {
        return creator(), true;
      }
      result, called := AddPrivate(key, creator, false, alive);
    }

    /** The last phase of value(): the entry is looked at again under the write lock. */
    method CleanUp(key: Key, alive: set<Obj>)
      modifies this
      ensures cache == CleanedUp(old(cache), alive, key)
      ensures forall k: Key :: Current(cache, alive, k) == Current(old(cache), alive, k)
      ensures key in cache ==> exists x :: Holds(cache, alive, key, x)
    {
      if key in cache && Strong(cache[key], alive).None? {
        cache := cache - {key};
      }
      if key in cache {
        assert Holds(cache, alive, key, cache[key].value);
      }
    }

    /** value() without the other caches, when nothing comes between its phases. */
    method Value(key: Key, created: Obj, alive: set<Obj>) returns (found: Option<Obj>)
      modifies this
      ensures Current(old(cache), alive, key).Some? ==> found == Current(old(cache), alive, key)
      ensures Current(old(cache), alive, key).None? ==> found == if key == DEFAULT_KEY then Some(created) else None
      ensures cache == CleanedUp(old(cache), alive, key)
    {
      found := None;
      var removeFromCache := false;
      if key in cache {
        var cachedValue := cache[key];
        found := Strong(cachedValue, alive);
        removeFromCache := found.None?;
      }
      if found.None? && key == DEFAULT_KEY {
        found := Some(created);
      }
      if removeFromCache {
        CleanUp(key, alive);
      }
    }

    method Remove(key: Key)
      modifies this
      ensures cache == old(cache) - {key}
    {
      cache := cache - {key};
    }

    method Clear()
      modifies this
      ensures cache == map[]
    {
      cache := map[];
    }
  }

  class Expirator {
    var controlled: Buckets

    constructor ()
      ensures controlled == map[]
    {
      controlled := map[];
    }

    method AddObject(o: Option<Obj>, expiration: int)
      modifies this
      ensures controlled == Inserted(old(controlled), BucketOf(expiration), o)
    {
      var time := expiration - expiration % 5000;
      time := time + 5000;
      var objects := if time in controlled then controlled[time] else {};
      controlled := controlled[time := objects + {o}];
    }

    /** The clean-up: buckets go in ascending order until one is later than the clock, which is read
        anew for each. `last` is the last reading. */
    method TimerEvent(start: int) returns (last: int)
      modifies this
      ensures start <= last
      ensures controlled == LaterThan(old(controlled), last)
    {
      last := start;
      while controlled != map[]
        invariant start <= last
        invariant forall b :: b in controlled ==> b in old(controlled) && controlled[b] == old(controlled)[b]
        invariant forall b :: b in old(controlled) && b !in controlled ==> b <= last
        invariant forall b, c :: b in old(controlled) && b !in controlled && c in controlled ==> b < c
        decreases |controlled.Keys|
      {
        var first := Earliest(controlled.Keys);
        var reading :| reading >= last;
        last := reading;
        if first > last {
          break;
        }
        assert first in controlled.Keys && controlled.Keys - {first} == (controlled - {first}).Keys;
        controlled := controlled - {first};
      }
      assert forall b :: b in controlled ==> b > last;
      assert controlled == LaterThan(old(controlled), last);
    }
  }

  /** What an addition that stored its object leaves with the expirator; no minimum life, no entry. */
  function Guarded(buckets: Buckets, now: int, minLife: nat, o: Option<Obj>): Buckets {
    if minLife == 0 then buckets else Inserted(buckets, BucketOf(now + 1000 * minLife), o)
  }

  /** The cache whose objects live for at least `minLife` seconds. */
  class GuaranteedCache {
    const weak: WeakCache
    const expirator: Expirator
    var minLife: nat

    constructor (expirator: Expirator)
      ensures this.expirator == expirator && fresh(weak) && weak.cache == map[] && minLife == 8 * 60 * 60
    {
      this.expirator := expirator;
      weak := new WeakCache();
      minLife := 8 * 60 * 60;
    }

    method AddToExpirator(o: Option<Obj>, now: int)
      modifies expirator
      ensures expirator.controlled == Guarded(old(expirator.controlled), now, minLife, o)
    {
      if minLife != 0 {
        expirator.AddObject(o, now + 1000 * minLife);
      }
    }

    /** add() of an object: it is guarded if it is the one the cache now answers with. */
    method Add(key: Key, o: Option<Obj>, overwrite: bool, alive: set<Obj>, now: int) returns (result: Option<Obj>)
      modifies weak, expirator
      ensures o.None? || key == DEFAULT_KEY ==>
                result == o && weak.cache == old(weak.cache) && expirator.controlled == old(expirator.controlled)
      ensures o.Some? && key != DEFAULT_KEY ==>
                && result == AddResult(old(weak.cache), alive, key, o, overwrite)
                && weak.cache == Added(old(weak.cache), alive, key, o, overwrite)
                && expirator.controlled == if result == o then Guarded(old(expirator.controlled), now, minLife, o)
                                           else old(expirator.controlled)
    {
      if o.None? || key == DEFAULT_KEY {
        return o;
      }
      result := weak.Add(key, o, overwrite, alive);
      if result == o {
        AddToExpirator(o, now);
      }
    }

    /** add() with a creator: what was made is guarded. */
    method AddCreated(key: Key, creator: () -> Option<Obj>, alive: set<Obj>, now: int) returns (result: Option<Obj>)
      modifies weak, expirator
      ensures key == DEFAULT_KEY ==>
                result == creator() && weak.cache == old(weak.cache) && expirator.controlled == old(expirator.controlled)
      ensures key != DEFAULT_KEY ==>
                && result == AddResult(old(weak.cache), alive, key, creator(), false)
                && weak.cache == Added(old(weak.cache), alive, key, creator(), false)
                && expirator.controlled == if Kept(old(weak.cache), alive, key, false) then old(expirator.controlled)
                                           else Guarded(old(expirator.controlled), now, minLife, creator())
    {
      if key == DEFAULT_KEY {
        return creator();
      }
      var called;
      result, called := weak.AddCreated(key, creator, alive);
      if called {
        AddToExpirator(result, now);
      }
    }
  }

  lemma NonEmpty(times: set<int>)
    requires times != {}
    ensures exists t :: t in times
  {
    assert (forall t :: t !in times) ==> times == {};
  }

  method Earliest(times: set<int>) returns (first: int)
    requires times != {}
    ensures first in times && forall t :: t in times ==> first <= t
  {
    NonEmpty(times);
    first :| first in times;
    var rest := times - {first};
    while rest != {}
      invariant rest <= times && first in times
      invariant forall t :: t in times && t !in rest ==> first <= t
      decreases |rest|
    {
      NonEmpty(rest);
      var t :| t in rest;
      rest := rest - {t};
      first := if t < first then t else first;
    }
  }
}
