/** Every interleaving of additions, lookups with their late clean-ups, removals, lost references,
    the clock and the expirator's timer, over one cache. */
module CacheRuns {
  import opened ObjectsCache
  import opened Runs
  import opened Text

  type CallId = nat

  /** Where a call is between its atomic parts. */
  datatype Phase = Looked | Late | Registering

  /** A call under way: for a lookup `weak` is the entry it read, for an addition the object it stored
      and still holds. `stale` once the key has been overwritten or removed in the meantime. */
  datatype Pending = Pending(phase: Phase, key: Key, weak: Option<Obj>, stale: bool)

  datatype Handed = Handed(key: Key, obj: Obj)

  datatype Promise = Promise(obj: Obj, until: int)

  /** `outside` are the objects referenced elsewhere, `born` all there ever were; `swept` is the time
      of the last clean-up. Recorded: the objects handed out for each key since the key was last
      overwritten or removed, all ever handed out, and all lifetimes promised. */
  datatype State = State(
    cache: Cache,
    buckets: Buckets,
    now: int,
    swept: int,
    minLife: nat,
    outside: set<Obj>,
    born: set<Obj>,
    calls: map<CallId, Pending>,
    handed: set<Handed>,
    ever: set<Handed>,
    promises: set<Promise>)

  datatype Event =
    | AddObject(c: CallId, key: Key, o: Obj, overwrite: bool)
    | AddCreated(c: CallId, key: Key, made: Option<Obj>)
    | Register(c: CallId)
    | Lookup(c: CallId, key: Key)
    | Strengthen(c: CallId)
    | CleanUp(c: CallId)
    | Remove(key: Key)
    | Clear
    | Create(o: Obj)
    | Drop(o: Obj)
    | Pass(time: nat)
    | Sweep
    | SetMinLife(seconds: nat)

  ghost predicate Init(s: State) {
    && s.cache == map[] && s.buckets == map[] && s.calls == map[] && s.swept <= s.now
    && s.outside == {} && s.born == {} && s.handed == {} && s.ever == {} && s.promises == {}
  }

  /** The objects with a strong reference somewhere. */
  function Alive(s: State): set<Obj> {
    s.outside + (set b, o | b in s.buckets && o in s.buckets[b] && o.Some? :: o.value)
  }

  /** `o` is alive, or is being made right now. */
  predicate AtHand(s: State, o: Obj) { o in Alive(s) || o !in s.born }

  predicate InPhase(s: State, c: CallId, phase: Phase) { c in s.calls && s.calls[c].phase == phase }

  ghost predicate Enabled(s: State, e: Event) {
    match e
    case AddObject(c, key, o, overwrite) => c !in s.calls && AtHand(s, o)
    case AddCreated(c, key, made) => c !in s.calls && (made.Some? ==> AtHand(s, made.value))
    case Register(c) => InPhase(s, c, Registering)
    case Lookup(c, key) => c !in s.calls
    case Strengthen(c) => InPhase(s, c, Looked)
    case CleanUp(c) => InPhase(s, c, Late)
    case Remove(key) => true
    case Clear => true
    case Create(o) => o !in s.born
    case Drop(o) => forall c :: InPhase(s, c, Registering) ==> s.calls[c].weak != Some(o)
    case Pass(time) => true
    case Sweep => true
    case SetMinLife(seconds) => true
  }

  predicate Hit(keys: Option<Key>, key: Key) { keys.None? || keys.value == key }

  /** The entry of a key, or of all, is overwritten or removed: earlier answers no longer bind. */
  function Disturb(s: State, keys: Option<Key>): State {
    s.(handed := (set h | h in s.handed && !Hit(keys, h.key)),
       calls := (map c | c in s.calls :: if Hit(keys, s.calls[c].key) then s.calls[c].(stale := true) else s.calls[c]))
  }

  /** `o` is handed to a caller, who then holds it. */
  function HandOut(s: State, key: Key, o: Option<Obj>, stale: bool): State {
    if o.None? then s
    else s.(outside := s.outside + {o.value}, born := s.born + {o.value},
            handed := if stale then s.handed else s.handed + {Handed(key, o.value)},
            ever := s.ever + {Handed(key, o.value)})
  }

  /** The locked part of an addition, and the start of its registration if `registers`. */
  function Add(s: State, c: CallId, key: Key, made: Option<Obj>, overwrite: bool, registers: bool): State {
    var result := AddResult(s.cache, Alive(s), key, made, overwrite);
    var stored := s.(cache := Added(s.cache, Alive(s), key, made, overwrite));
    var t := HandOut(if overwrite then Disturb(stored, Some(key)) else stored, key, result, false);
    if registers then t.(calls := t.calls[c := Pending(Registering, key, result, false)]) else t
  }

  /** A caller keeps what it made, though no cache knows it. */
  function Hold(s: State, o: Obj): State { s.(outside := s.outside + {o}, born := s.born + {o}) }

  function Apply(s: State, e: Event): State {
    match e
    case AddObject(c, key, o, overwrite) =>
      if key == DEFAULT_KEY then Hold(s, o)
      else Add(s, c, key, Some(o), overwrite, AddResult(s.cache, Alive(s), key, Some(o), overwrite) == Some(o))
    case AddCreated(c, key, made) =>
      if key == DEFAULT_KEY then (if made.None? then s else Hold(s, made.value))
      else Add(s, c, key, made, false, !Kept(s.cache, Alive(s), key, false))
    case Register(c) =>
      if c !in s.calls then s
      else
        var o := s.calls[c].weak;
        s.(buckets := Guarded(s.buckets, s.now, s.minLife, o), calls := s.calls - {c},
           promises := if o.None? || s.minLife == 0 then s.promises
                       else s.promises + {Promise(o.value, s.now + 1000 * s.minLife)})
    case Lookup(c, key) =>
      if key !in s.cache then s else s.(calls := s.calls[c := Pending(Looked, key, s.cache[key], false)])
    case Strengthen(c) =>
      if c !in s.calls then s
      else
        var p := s.calls[c];
        var found := Strong(p.weak, Alive(s));
        if found.Some? then HandOut(s.(calls := s.calls - {c}), p.key, found, p.stale)
        else s.(calls := s.calls[c := p.(phase := Late)])
    case CleanUp(c) =>
      if c !in s.calls then s
      else s.(cache := CleanedUp(s.cache, Alive(s), s.calls[c].key), calls := s.calls - {c})
    case Remove(key) => Disturb(s, Some(key)).(cache := s.cache - {key})
    case Clear => Disturb(s, None).(cache := map[])
    case Create(o) => Hold(s, o)
    case Drop(o) => s.(outside := s.outside - {o})
    case Pass(time) => s.(now := s.now + time)
    case Sweep => s.(buckets := LaterThan(s.buckets, s.now), swept := s.now)
    case SetMinLife(seconds) => s.(minLife := seconds)
  }

  ghost predicate Reachable(s: State) {
    exists init, run :: Init(init) && Valid(Enabled, Apply, init, run) && After(Apply, init, run) == s
  }

  // ---- Invariant ----

  /** Everything that refers to an object refers to one that was born. */
  predicate BornOk(s: State) {
    && Alive(s) <= s.born
    && (forall k :: k in s.cache && s.cache[k].Some? ==> s.cache[k].value in s.born)
    && (forall c :: c in s.calls && s.calls[c].weak.Some? ==> s.calls[c].weak.value in s.born)
    && (forall h :: h in s.handed ==> h.obj in s.born)
  }

  /** An object handed out for a key, and still alive, is the one the cache has for that key. */
  ghost predicate IdentityOk(s: State) {
    && DEFAULT_KEY !in s.cache
    && (forall h :: h in s.handed && h.obj in Alive(s) ==> h.key in s.cache && s.cache[h.key] == Some(h.obj))
    && (forall c :: InPhase(s, c, Looked) && !s.calls[c].stale && s.calls[c].weak.Some? && s.calls[c].weak.value in Alive(s) ==>
          s.calls[c].key in s.cache && s.cache[s.calls[c].key] == s.calls[c].weak)
  }

  /** A promised object is in a bucket that is not due, and no bucket is overdue. */
  predicate PromisesOk(s: State) {
    && s.swept <= s.now
    && (forall b :: b in s.buckets ==> b > s.swept)
    && (forall p :: p in s.promises && s.now <= p.until ==>
          BucketOf(p.until) in s.buckets && Some(p.obj) in s.buckets[BucketOf(p.until)])
  }

  ghost predicate HoldersOk(s: State) {
    forall c :: InPhase(s, c, Registering) && s.calls[c].weak.Some? ==> s.calls[c].weak.value in s.outside
  }

  /** A promise puts `o` into bucket `b`. */
  ghost predicate Promised(s: State, o: Obj, b: int) {
    exists p :: p in s.promises && p.obj == o && BucketOf(p.until) == b
  }

  ghost predicate BucketsOk(s: State) {
    forall b, o: Obj :: b in s.buckets && Some(o) in s.buckets[b] ==> Promised(s, o, b)
  }

  ghost predicate Inv(s: State) { BornOk(s) && IdentityOk(s) && PromisesOk(s) && HoldersOk(s) && BucketsOk(s) }

  lemma HandOutAlive(s: State, key: Key, o: Option<Obj>, stale: bool)
    ensures Alive(HandOut(s, key, o, stale)) == Alive(s) + (if o.Some? then {o.value} else {})
  {
  }

  lemma GuardedAlive(s: State, o: Option<Obj>)
    ensures Alive(s.(buckets := Guarded(s.buckets, s.now, s.minLife, o))) <= Alive(s) + (if o.Some? then {o.value} else {})
  {
  }

  /** No answer still binds `key`: nothing alive has been handed out for it or read from it. */
  ghost predicate Unbound(s: State, key: Key) {
    && (forall h :: h in s.handed && h.key == key ==> h.obj !in Alive(s))
    && (forall c :: InPhase(s, c, Looked) && !s.calls[c].stale && s.calls[c].key == key && s.calls[c].weak.Some? ==>
          s.calls[c].weak.value !in Alive(s))
  }

  lemma StoreKeepsInv(s: State, key: Key, made: Option<Obj>)
    requires Inv(s) && Unbound(s, key) && key != DEFAULT_KEY && (made.Some? ==> AtHand(s, made.value))
    ensures Inv(HandOut(s.(cache := s.cache[key := made]), key, made, false))
  {
    var stored := s.(cache := s.cache[key := made]);
    HandOutAlive(stored, key, made, false);
    assert Alive(stored) == Alive(s);
    hide Alive;
  }

  lemma RepeatKeepsInv(s: State, key: Key)
    requires Inv(s) && key != DEFAULT_KEY && Current(s.cache, Alive(s), key).Some?
    ensures Inv(HandOut(s, key, Current(s.cache, Alive(s), key), false))
  {
    HandOutAlive(s, key, Current(s.cache, Alive(s), key), false);
    hide Alive;
  }

  lemma StartRegistering(s: State, c: CallId, key: Key, o: Option<Obj>)
    requires Inv(s) && c !in s.calls && (o.Some? ==> o.value in s.outside)
    ensures Inv(s.(calls := s.calls[c := Pending(Registering, key, o, false)]))
  {
    assert Alive(s.(calls := s.calls[c := Pending(Registering, key, o, false)])) == Alive(s);
    assert s.outside <= Alive(s);
    hide Alive;
  }

  lemma NotKeptUnbound(s: State, key: Key)
    requires Inv(s) && Current(s.cache, Alive(s), key).None?
    ensures Unbound(s, key)
  {
    hide Alive;
  }

  lemma DisturbedUnbound(s: State, key: Key)
    ensures Unbound(Disturb(s, Some(key)), key)
  {
  }

  lemma AddKeepsInv(s: State, c: CallId, key: Key, made: Option<Obj>, overwrite: bool, registers: bool)
    requires Inv(s) && c !in s.calls && key != DEFAULT_KEY && (made.Some? ==> AtHand(s, made.value))
    ensures Inv(Add(s, c, key, made, overwrite, registers))
  {
    var result := AddResult(s.cache, Alive(s), key, made, overwrite);
    if Kept(s.cache, Alive(s), key, overwrite) {
      RepeatKeepsInv(s, key);
    } else if overwrite {
      DisturbKeepsInv(s, Some(key), s.cache);
      DisturbedUnbound(s, key);
      assert Alive(Disturb(s, Some(key))) == Alive(s);
      StoreKeepsInv(Disturb(s, Some(key)), key, made);
    } else {
      NotKeptUnbound(s, key);
      StoreKeepsInv(s, key, made);
    }
    if registers {
      StartRegistering(Add(s, c, key, made, overwrite, false), c, key, result);
    }
  }

  lemma RegisterKeepsPromises(s: State, c: CallId)
    requires PromisesOk(s) && BucketsOk(s) && InPhase(s, c, Registering)
    ensures PromisesOk(Apply(s, Register(c))) && BucketsOk(Apply(s, Register(c)))
  {
    var t := Apply(s, Register(c));
    var weak := s.calls[c].weak;
    forall b, o: Obj | b in t.buckets && Some(o) in t.buckets[b] ensures Promised(t, o, b) {
      if b in s.buckets && Some(o) in s.buckets[b] {
        var p :| p in s.promises && p.obj == o && BucketOf(p.until) == b;
        assert p in t.promises;
      } else {
        assert Promise(o, s.now + 1000 * s.minLife) in t.promises;
      }
    }
  }

  lemma RegisterKeepsAlive(s: State, c: CallId)
    requires HoldersOk(s) && InPhase(s, c, Registering)
    ensures Alive(Apply(s, Register(c))) == Alive(s)
  {
    var weak := s.calls[c].weak;
    GuardedAlive(s, weak);
    var t := s.(buckets := Guarded(s.buckets, s.now, s.minLife, weak));
    assert forall b :: b in s.buckets ==> b in t.buckets && s.buckets[b] <= t.buckets[b];
    assert Alive(Apply(s, Register(c))) == Alive(t);
    assert Alive(s) <= Alive(t);
  }

  lemma RegisterKeepsInv(s: State, c: CallId)
    requires Inv(s) && InPhase(s, c, Registering)
    ensures Inv(Apply(s, Register(c)))
  {
    RegisterKeepsAlive(s, c);
    RegisterKeepsPromises(s, c);
    hide Alive, Promised, Guarded, BucketOf;
  }

  lemma LookupKeepsInv(s: State, c: CallId, key: Key)
    requires Inv(s) && c !in s.calls
    ensures Inv(Apply(s, Lookup(c, key)))
  {
  }

  lemma StrengthenKeepsInv(s: State, c: CallId)
    requires Inv(s) && InPhase(s, c, Looked)
    ensures Inv(Apply(s, Strengthen(c)))
  {
  }

  lemma CleanUpKeepsInv(s: State, c: CallId)
    requires Inv(s) && InPhase(s, c, Late)
    ensures Inv(Apply(s, CleanUp(c)))
  {
  }

  lemma DisturbKeepsInv(s: State, keys: Option<Key>, cache: Cache)
    requires Inv(s)
    requires forall k :: k in s.cache && !Hit(keys, k) ==> k in cache
    requires forall k :: k in cache ==> k in s.cache && cache[k] == s.cache[k]
    ensures Inv(Disturb(s, keys).(cache := cache))
  {
  }

  lemma HoldKeepsInv(s: State, o: Obj)
    requires Inv(s) && AtHand(s, o)
    ensures Inv(Hold(s, o))
  {
  }

  lemma DropKeepsInv(s: State, o: Obj)
    requires Inv(s) && Enabled(s, Drop(o))
    ensures Inv(Apply(s, Drop(o)))
  {
  }

  lemma SweepKeepsInv(s: State)
    requires Inv(s)
    ensures Inv(Apply(s, Sweep))
  {
  }

  lemma StepKeepsInv(s: State, e: Event)
    requires Inv(s) && Enabled(s, e)
    ensures Inv(Apply(s, e))
  {
    match e
    case AddObject(c, key, o, overwrite) =>
      if key == DEFAULT_KEY {
        HoldKeepsInv(s, o);
      } else {
        AddKeepsInv(s, c, key, Some(o), overwrite, AddResult(s.cache, Alive(s), key, Some(o), overwrite) == Some(o));
      }
    case AddCreated(c, key, made) =>
      if key == DEFAULT_KEY {
        if made.Some? {
          HoldKeepsInv(s, made.value);
        }
      } else {
        AddKeepsInv(s, c, key, made, false, !Kept(s.cache, Alive(s), key, false));
      }
    case Register(c) => RegisterKeepsInv(s, c);
    case Lookup(c, key) => LookupKeepsInv(s, c, key);
    case Strengthen(c) => StrengthenKeepsInv(s, c);
    case CleanUp(c) => CleanUpKeepsInv(s, c);
    case Remove(key) => DisturbKeepsInv(s, Some(key), s.cache - {key});
    case Clear => DisturbKeepsInv(s, None, map[]);
    case Create(o) => HoldKeepsInv(s, o);
    case Drop(o) => DropKeepsInv(s, o);
    case Pass(time) =>
    case Sweep => SweepKeepsInv(s);
    case SetMinLife(seconds) =>
  }

  lemma ReachableInv(s: State)
    requires Reachable(s)
    ensures Inv(s)
  {
    var init, run :| Init(init) && Valid(Enabled, Apply, init, run) && After(Apply, init, run) == s;
    assert Inv(init);
    hide Inv, Enabled, Apply, Init;
    forall t: State, e: Event | Inv(t) && Enabled(t, e) ensures Inv(Apply(t, e)) {
      StepKeepsInv(t, e);
    }
    Invariant(Enabled, Apply, Inv, init, run);
  }

  // ---- Identity ----

  /** The event overwrites, removes or clears entries of `key`. */
  predicate Disturbs(e: Event, key: Key) {
    (e.AddObject? && e.overwrite && e.key == key) || (e.Remove? && e.key == key) || e.Clear?
  }

  predicate Undisturbed(run: seq<Event>, key: Key) { forall i :: 0 <= i < |run| ==> !Disturbs(run[i], key) }

  predicate Concerns(e: Event, c: CallId) {
    match e
    case AddObject(d, _, _, _) => c == d
    case AddCreated(d, _, _) => c == d
    case Register(d) => c == d
    case Lookup(d, _) => c == d
    case Strengthen(d) => c == d
    case CleanUp(d) => c == d
    case _ => false
  }

  /** What a call to add() without overwriting returns here. */
  function AddReturns(s: State, key: Key, made: Option<Obj>): Option<Obj> {
    AddResult(s.cache, Alive(s), key, made, false)
  }

  /** What the second phase of a lookup finds here. */
  function Finds(s: State, c: CallId): Option<Obj>
    requires c in s.calls
  {
    Strong(s.calls[c].weak, Alive(s))
  }

  /** Two live objects handed out for one key are one object, and it is what add() returns. */
  lemma IdentityMap(s: State, h: Handed, made: Option<Obj>)
    requires Reachable(s) && h in s.handed && h.obj in Alive(s)
    ensures AddReturns(s, h.key, made) == Some(h.obj)
    ensures forall g :: g in s.handed && g.key == h.key && g.obj in Alive(s) ==> g == h
  {
    ReachableInv(s);
  }

  lemma StepPersists(s: State, e: Event, h: Handed)
    requires h in s.handed && !Disturbs(e, h.key)
    ensures h in Apply(s, e).handed
  {
    hide Alive, AddResult, Added, Kept, CleanedUp, Guarded, LaterThan, Strong, Current;
  }

  lemma {:induction false} Persists(s: State, run: seq<Event>, h: Handed)
    requires h in s.handed && Undisturbed(run, h.key)
    ensures h in After(Apply, s, run).handed
  {
    if run != [] {
      var n := |run| - 1;
      assert Undisturbed(run[..n], h.key);
      Persists(s, run[..n], h);
      StepPersists(After(Apply, s, run[..n]), run[n], h);
    }
  }

  lemma StepWaits(s: State, e: Event, c: CallId)
    requires c in s.calls && !Concerns(e, c)
    ensures var t := Apply(s, e);
            c in t.calls && t.calls[c].phase == s.calls[c].phase && t.calls[c].weak == s.calls[c].weak
  {
    hide Alive, AddResult, Added, Kept, CleanedUp, Guarded, LaterThan, Strong, Current;
  }

  lemma {:induction false} CallWaits(s: State, run: seq<Event>, c: CallId)
    requires c in s.calls
    requires forall i :: 0 <= i < |run| ==> !Concerns(run[i], c)
    ensures var t := After(Apply, s, run);
            c in t.calls && t.calls[c].phase == s.calls[c].phase && t.calls[c].weak == s.calls[c].weak
  {
    if run != [] {
      var n := |run| - 1;
      CallWaits(s, run[..n], c);
      StepWaits(After(Apply, s, run[..n]), run[n], c);
      hide Apply;
    }
  }

  /** An object without a reference never comes back. */
  lemma StepNeverRevives(s: State, e: Event, o: Obj)
    requires Inv(s) && Enabled(s, e) && o in s.born && o !in Alive(s)
    ensures o in Apply(s, e).born && o !in Alive(Apply(s, e))
  {
    if e.Register? {
      RegisterKeepsAlive(s, e.c);
    }
    hide PromisesOk, BucketsOk, IdentityOk, Guarded, BucketOf, Added, CleanedUp;
  }

  lemma {:induction false} NeverRevived(s: State, run: seq<Event>, o: Obj)
    requires Inv(s) && Valid(Enabled, Apply, s, run) && o in s.born && o !in Alive(s)
    ensures var t := After(Apply, s, run); Inv(t) && o in t.born && o !in Alive(t)
  {
    if run != [] {
      var n := |run| - 1;
      NeverRevived(s, run[..n], o);
      hide Inv, Alive, Enabled, Apply;
      StepNeverRevives(After(Apply, s, run[..n]), run[n], o);
      StepKeepsInv(After(Apply, s, run[..n]), run[n]);
    }
  }

  /** value() returns the live object handed out before it, however long other calls come between its
      phases, as long as that object lives until the second phase. */
  lemma ValueReturnsTheLiveOne(s: State, h: Handed, c: CallId, run: seq<Event>)
    requires Reachable(s) && h in s.handed && Enabled(s, Lookup(c, h.key))
    requires var looked := Apply(s, Lookup(c, h.key));
             && Valid(Enabled, Apply, looked, run) && h.obj in Alive(After(Apply, looked, run))
    requires forall i :: 0 <= i < |run| ==> !Concerns(run[i], c)
    ensures var t := After(Apply, Apply(s, Lookup(c, h.key)), run);
            c in t.calls && t.calls[c].phase == Looked && Finds(t, c) == Some(h.obj)
  {
    ReachableInv(s);
    var looked := Apply(s, Lookup(c, h.key));
    StepKeepsInv(s, Lookup(c, h.key));
    if h.obj !in Alive(s) {
      assert Alive(looked) == Alive(s);
      NeverRevived(looked, run, h.obj);
    }
    CallWaits(looked, run, c);
  }

  /** The event overwrites, removes or clears nothing. */
  predicate Gentle(e: Event) { !(e.AddObject? && e.overwrite) && !e.Remove? && !e.Clear? }

  /** Without overwriting, removing or clearing, the above holds of everything ever handed out. */
  lemma {:induction false} NothingForgotten(init: State, run: seq<Event>)
    requires Init(init) && Valid(Enabled, Apply, init, run)
    requires forall i :: 0 <= i < |run| ==> Gentle(run[i])
    ensures var t := After(Apply, init, run);
            t.handed == t.ever && (forall c :: c in t.calls ==> !t.calls[c].stale)
  {
    if run != [] {
      var n := |run| - 1;
      var s := After(Apply, init, run[..n]);
      NothingForgotten(init, run[..n]);
      StepForgetsNothing(s, run[n]);
    }
  }

  lemma StepForgetsNothing(s: State, e: Event)
    requires s.handed == s.ever && (forall c :: c in s.calls ==> !s.calls[c].stale)
    requires Gentle(e)
    ensures var t := Apply(s, e);
            t.handed == t.ever && (forall c :: c in t.calls ==> !t.calls[c].stale)
  {
    hide Alive, AddResult, Added, Kept, CleanedUp, Guarded, LaterThan, Strong, Current;
  }

  // ---- Guaranteed lifetime ----

  lemma StepKeepsPromise(s: State, e: Event, p: Promise)
    requires p in s.promises
    ensures p in Apply(s, e).promises
  {
    hide Alive, AddResult, Added, Kept, CleanedUp, Guarded, LaterThan, Strong, Current;
  }

  lemma {:induction false} PromiseStands(s: State, run: seq<Event>, p: Promise)
    requires Inv(s) && Valid(Enabled, Apply, s, run) && p in s.promises
    ensures Inv(After(Apply, s, run)) && p in After(Apply, s, run).promises
  {
    if run != [] {
      var n := |run| - 1;
      PromiseStands(s, run[..n], p);
      hide Inv, Enabled, Apply;
      StepKeepsInv(After(Apply, s, run[..n]), run[n]);
      StepKeepsPromise(After(Apply, s, run[..n]), run[n], p);
    }
  }

  /** An object registered at some time with a minimum life stays alive that long, whatever happens
      then; and while its key is not disturbed the cache answers with it. */
  lemma GuaranteedLifetime(s: State, c: CallId, h: Handed, run: seq<Event>, made: Option<Obj>)
    requires Reachable(s) && Enabled(s, Register(c)) && s.minLife > 0
    requires s.calls[c].key == h.key && s.calls[c].weak == Some(h.obj)
    requires Valid(Enabled, Apply, Apply(s, Register(c)), run)
    ensures var t := After(Apply, Apply(s, Register(c)), run);
            t.now <= s.now + 1000 * s.minLife ==>
              && h.obj in Alive(t)
              && (h in s.handed && Undisturbed(run, h.key) ==>
                    Current(t.cache, Alive(t), h.key) == Some(h.obj) && AddReturns(t, h.key, made) == Some(h.obj))
  {
    ReachableInv(s);
    var s' := Apply(s, Register(c));
    var p := Promise(h.obj, s.now + 1000 * s.minLife);
    assert p in s'.promises && s'.handed == s.handed;
    StepKeepsInv(s, Register(c));
    hide Inv, Enabled, Apply, Alive, Undisturbed;
    PromiseStands(s', run, p);
    if h in s.handed && Undisturbed(run, h.key) {
      Persists(s', run, h);
    }
    if After(Apply, s', run).now <= p.until {
      PromisedIsFound(After(Apply, s', run), p, h, made);
    }
  }

  lemma PromisedIsFound(t: State, p: Promise, h: Handed, made: Option<Obj>)
    requires Inv(t) && p in t.promises && t.now <= p.until && p.obj == h.obj
    ensures h.obj in Alive(t)
    ensures h in t.handed ==> Current(t.cache, Alive(t), h.key) == Some(h.obj) && AddReturns(t, h.key, made) == Some(h.obj)
  {
    assert Some(h.obj) in t.buckets[BucketOf(p.until)];
  }

  /** The object just added is bound to its key: so it is when its registration begins, which it does
      exactly if it may overwrite, or no other object is alive under the key. */
  lemma AddedIsHanded(s: State, c: CallId, key: Key, o: Obj, overwrite: bool)
    requires Enabled(s, AddObject(c, key, o, overwrite)) && key != DEFAULT_KEY
    ensures var t := Apply(s, AddObject(c, key, o, overwrite));
            InPhase(t, c, Registering) <==> overwrite || forall x :: Holds(s.cache, Alive(s), key, x) ==> x == o
    ensures var t := Apply(s, AddObject(c, key, o, overwrite));
            InPhase(t, c, Registering) ==>
              && t.calls[c].key == key && t.calls[c].weak == Some(o) && Handed(key, o) in t.handed
              && t.cache == s.cache[key := Some(o)]
  {
    if key in s.cache && s.cache[key].Some? {
      var x := s.cache[key].value;
      assert Holds(s.cache, Alive(s), key, x) <==> x in Alive(s);
    }
    hide Alive;
  }

  /** So is what a creator made: its registration begins exactly when it was called, which it is exactly if
      no object is alive under the key. */
  lemma CreatedIsHanded(s: State, c: CallId, key: Key, made: Option<Obj>)
    requires Enabled(s, AddCreated(c, key, made)) && key != DEFAULT_KEY
    ensures var t := Apply(s, AddCreated(c, key, made));
            && (InPhase(t, c, Registering) <==> forall x :: !Holds(s.cache, Alive(s), key, x))
            && (InPhase(t, c, Registering) ==>
                  && t.calls[c].key == key && t.calls[c].weak == made && t.cache == s.cache[key := made]
                  && (made.Some? ==> Handed(key, made.value) in t.handed))
  {
    if key in s.cache && s.cache[key].Some? {
      var x := s.cache[key].value;
      assert Holds(s.cache, Alive(s), key, x) <==> x in Alive(s);
    }
    hide Alive;
  }

  /** An addition that may overwrite makes the cache answer with the new object, whatever was there, and
      leaves all other keys alone. */
  lemma OverwritingAddIsFound(s: State, c: CallId, key: Key, o: Obj)
    requires Enabled(s, AddObject(c, key, o, true)) && key != DEFAULT_KEY
    ensures var t := Apply(s, AddObject(c, key, o, true));
            && Current(t.cache, Alive(t), key) == Some(o) && Holds(t.cache, Alive(t), key, o)
            && forall k: Key :: k != key ==> (k in t.cache <==> k in s.cache) && (k in s.cache ==> t.cache[k] == s.cache[k])
  {
  }

  /** A clean-up at least five seconds past the end of a promise has emptied its bucket, and an object
      all of whose promises have passed so lives by other references or not at all. */
  lemma ExpiredIsReleased(s: State, o: Obj)
    requires Reachable(s)
    ensures forall p :: p in s.promises && p.until + 5000 <= s.swept ==> BucketOf(p.until) !in s.buckets
    ensures (forall p :: p in s.promises && p.obj == o ==> p.until + 5000 <= s.swept) && o !in s.outside ==>
              o !in Alive(s)
  {
    ReachableInv(s);
    if (forall p :: p in s.promises && p.obj == o ==> p.until + 5000 <= s.swept) && o !in s.outside {
      forall b | b in s.buckets ensures Some(o) !in s.buckets[b] {
        assert !Promised(s, o, b);
      }
    }
  }
}
