/** Copying one network entity into another under both entities' spin locks. The target's lock is
    taken first, the source's is only tried: on failure the target's is given back and the attempt
    starts over. Any number of threads update arbitrary pairs at once. */
module EntityUpdate {
  import opened Runs

  type Thread = nat
  type Entity = nat

  /** The flags of the pair when both locks were taken: what the copy has to produce. */
  datatype Snapshot = Snapshot(sourceDirty: bool, sourceFetched: bool, targetFetched: bool)

  /** Where a thread is inside its call. */
  datatype Phase =
    | Wanting(target: Entity, source: Entity)
    | HoldingTarget(target: Entity, source: Entity)
    | BackingOff(target: Entity, source: Entity)
    | HoldingBoth(target: Entity, source: Entity, was: Snapshot)
    | FetchedCopied(target: Entity, source: Entity, was: Snapshot)
    | DirtyCopied(target: Entity, source: Entity, was: Snapshot)
    | SourceReleased(target: Entity, source: Entity, was: Snapshot)

  /** Locked entities with the locking thread, the entities' flags, and the calls in progress. */
  datatype State = State(
    owner: map<Entity, Thread>,
    dirty: set<Entity>,
    fetched: set<Entity>,
    calls: map<Thread, Phase>)

  datatype Event =
    | Begin(t: Thread, target: Entity, source: Entity)
    | LockTarget(t: Thread)
    | TryLockSource(t: Thread)
    | GiveBack(t: Thread)
    | CopyFetched(t: Thread)
    | CopyDirty(t: Thread)
    | UnlockSource(t: Thread)
    | UnlockTarget(t: Thread)

  predicate Enabled(s: State, e: Event) {
    if e.Begin? then e.t !in s.calls
    else
      e.t in s.calls &&
      var p := s.calls[e.t];
      match e
      case LockTarget(_) => p.Wanting? && p.target !in s.owner
      case TryLockSource(_) => p.HoldingTarget?
      case GiveBack(_) => p.BackingOff?
      case CopyFetched(_) => p.HoldingBoth?
      case CopyDirty(_) => p.FetchedCopied?
      case UnlockSource(_) => p.DirtyCopied?
      case UnlockTarget(_) => p.SourceReleased?
      case Begin(_, _, _) => false
  }

  function Put(flagged: set<Entity>, e: Entity, flag: bool): set<Entity> {
    if flag then flagged + {e} else flagged - {e}
  }

  function Apply(s: State, e: Event): State {
    if e.Begin? then
      if e.target == e.source then s
      else s.(calls := s.calls[e.t := Wanting(e.target, e.source)])
    else if e.t !in s.calls then s
    else
      var t := e.t;
      var p := s.calls[t];
      var a, b := p.target, p.source;
      match e
      case LockTarget(_) => s.(owner := s.owner[a := t], calls := s.calls[t := HoldingTarget(a, b)])
      case TryLockSource(_) =>
        if b in s.owner then s.(calls := s.calls[t := BackingOff(a, b)])
        else
          var was := Snapshot(b in s.dirty, b in s.fetched, a in s.fetched);
          s.(owner := s.owner[b := t], calls := s.calls[t := HoldingBoth(a, b, was)])
      case GiveBack(_) => s.(owner := s.owner - {a}, calls := s.calls[t := Wanting(a, b)])
      case CopyFetched(_) =>
        if !p.HoldingBoth? then s
        else s.(fetched := if b in s.fetched then s.fetched + {a} else s.fetched,
                calls := s.calls[t := FetchedCopied(a, b, p.was)])
      case CopyDirty(_) =>
        if !p.FetchedCopied? then s
        else s.(dirty := Put(s.dirty, a, b in s.dirty), calls := s.calls[t := DirtyCopied(a, b, p.was)])
      case UnlockSource(_) =>
        if !p.DirtyCopied? then s
        else s.(owner := s.owner - {b}, calls := s.calls[t := SourceReleased(a, b, p.was)])
      case UnlockTarget(_) => s.(owner := s.owner - {a}, calls := s.calls - {t})
      case Begin(_, _, _) => s
  }

  /** No lock taken, no call in progress; any flags. */
  predicate Initial(s: State) { s.owner == map[] && s.calls == map[] }

  ghost predicate Reachable(s: State) {
    exists init, run :: Initial(init) && Valid(Enabled, Apply, init, run) && After(Apply, init, run) == s
  }

  // ---- Locks ----

  predicate Copying(p: Phase) { p.HoldingBoth? || p.FetchedCopied? || p.DirtyCopied? }

  function Held(p: Phase): set<Entity> {
    if p.Wanting? then {} else if Copying(p) then {p.target, p.source} else {p.target}
  }

  /** A thread's locks are the ones its place in the call says, and every lock has such a thread. */
  predicate LocksOk(s: State) {
    && (forall t :: t in s.calls ==> s.calls[t].target != s.calls[t].source)
    && (forall t, e :: t in s.calls && e in Held(s.calls[t]) ==> e in s.owner && s.owner[e] == t)
    && (forall e :: e in s.owner ==> s.owner[e] in s.calls && e in Held(s.calls[s.owner[e]]))
  }

  /** The target's flags are what the copy has to produce. */
  predicate TargetDone(s: State, target: Entity, was: Snapshot) {
    && (target in s.dirty <==> was.sourceDirty)
    && (target in s.fetched <==> was.targetFetched || was.sourceFetched)
  }

  /** The flags of a locked pair have changed only as the copy itself changed them. */
  predicate CopyOk(s: State, p: Phase) {
    && (Copying(p) ==> (p.source in s.dirty <==> p.was.sourceDirty) && (p.source in s.fetched <==> p.was.sourceFetched))
    && (p.HoldingBoth? ==> (p.target in s.fetched <==> p.was.targetFetched))
    && (p.FetchedCopied? ==> (p.target in s.fetched <==> p.was.targetFetched || p.was.sourceFetched))
    && (p.DirtyCopied? || p.SourceReleased? ==> TargetDone(s, p.target, p.was))
  }

  predicate Inv(s: State) { LocksOk(s) && forall t :: t in s.calls ==> CopyOk(s, s.calls[t]) }

  /** No entity is locked by two threads. */
  lemma HeldDisjoint(s: State, t: Thread, u: Thread)
    requires LocksOk(s) && t in s.calls && u in s.calls && t != u
    ensures Held(s.calls[t]) !! Held(s.calls[u])
  {
    forall e | e in Held(s.calls[t]) ensures e !in Held(s.calls[u]) {
      assert s.owner[e] == t;
    }
  }

  lemma AcquireKeepsLocks(s: State, t: Thread, e: Entity, p: Phase)
    requires LocksOk(s) && e !in s.owner
    requires p.target != p.source
    requires t in s.calls && Held(p) == Held(s.calls[t]) + {e}
    ensures LocksOk(s.(owner := s.owner[e := t], calls := s.calls[t := p]))
  {
    hide Held;
  }

  lemma UnlockKeepsLocks(s: State, t: Thread, e: Entity, p: Phase)
    requires LocksOk(s) && t in s.calls && e in Held(s.calls[t])
    requires p.target != p.source && Held(p) == Held(s.calls[t]) - {e}
    ensures LocksOk(s.(owner := s.owner - {e}, calls := s.calls[t := p]))
  {
    hide Held;
    var s' := s.(owner := s.owner - {e}, calls := s.calls[t := p]);
    forall f | f in s'.owner ensures s'.owner[f] in s'.calls && f in Held(s'.calls[s'.owner[f]]) {
      assert f in s.owner;
    }
    forall u, f | u in s'.calls && f in Held(s'.calls[u]) ensures f in s'.owner && s'.owner[f] == u {
      assert if u == t then f in Held(p) && f != e else f in Held(s.calls[u]);
      assert f in Held(s.calls[u]) && s.owner[f] == u;
      assert s.owner[e] == t;
    }
  }

  lemma MoveKeepsLocks(s: State, t: Thread, p: Phase)
    requires LocksOk(s) && p.target != p.source
    requires Held(p) == if t in s.calls then Held(s.calls[t]) else {}
    ensures LocksOk(s.(calls := s.calls[t := p]))
  {
    hide Held;
  }

  lemma ReturnKeepsLocks(s: State, t: Thread, e: Entity)
    requires LocksOk(s) && t in s.calls && Held(s.calls[t]) == {e}
    ensures LocksOk(s.(owner := s.owner - {e}, calls := s.calls - {t}))
  {
    hide Held;
    var s' := s.(owner := s.owner - {e}, calls := s.calls - {t});
    forall f | f in s'.owner ensures s'.owner[f] in s'.calls && f in Held(s'.calls[s'.owner[f]]) {
      assert f in s.owner && f in Held(s.calls[s.owner[f]]);
    }
    forall u, f | u in s'.calls && f in Held(s'.calls[u]) ensures f in s'.owner && s'.owner[f] == u {
      assert f in s.owner && s.owner[f] == u;
      assert e in Held(s.calls[t]);
    }
  }

  lemma LocksIgnoreFlags(s: State, t: State)
    requires LocksOk(s) && t.owner == s.owner && t.calls == s.calls
    ensures LocksOk(t)
  {
  }

  lemma StepKeepsLocks(s: State, e: Event)
    requires LocksOk(s) && Enabled(s, e)
    ensures LocksOk(Apply(s, e))
  {
    var t := e.t;
    var s' := Apply(s, e);
    if e.Begin? {
      if e.target != e.source {
        MoveKeepsLocks(s, t, s'.calls[t]);
      }
    } else {
      var a, b := s.calls[t].target, s.calls[t].source;
      match e
      case LockTarget(_) => AcquireKeepsLocks(s, t, a, s'.calls[t]);
      case TryLockSource(_) =>
        if b in s.owner {
          MoveKeepsLocks(s, t, s'.calls[t]);
        } else {
          AcquireKeepsLocks(s, t, b, s'.calls[t]);
        }
      case GiveBack(_) => UnlockKeepsLocks(s, t, a, s'.calls[t]);
      case CopyFetched(_) => CopyKeepsLocks(s, t, s');
      case CopyDirty(_) => CopyKeepsLocks(s, t, s');
      case UnlockSource(_) => UnlockKeepsLocks(s, t, b, s'.calls[t]);
      case UnlockTarget(_) => ReturnKeepsLocks(s, t, a);
    }
  }

  lemma CopyKeepsLocks(s: State, t: Thread, s': State)
    requires LocksOk(s) && t in s.calls && t in s'.calls && s'.owner == s.owner
    requires s'.calls == s.calls[t := s'.calls[t]]
    requires s'.calls[t].target == s.calls[t].target && s'.calls[t].source == s.calls[t].source
    requires Copying(s.calls[t]) && Copying(s'.calls[t])
    ensures LocksOk(s')
  {
    MoveKeepsLocks(s, t, s'.calls[t]);
    LocksIgnoreFlags(s.(calls := s.calls[t := s'.calls[t]]), s');
  }

  lemma StepKeepsInv(s: State, e: Event)
    requires Inv(s) && Enabled(s, e)
    ensures Inv(Apply(s, e))
  {
    var s' := Apply(s, e);
    StepKeepsLocks(s, e);
    forall t | t in s'.calls ensures CopyOk(s', s'.calls[t]) {
      if t == e.t {
        OwnStepKeepsCopy(s, e);
      } else {
        OtherStepKeepsCopy(s, e, t);
      }
    }
  }

  lemma OwnStepKeepsCopy(s: State, e: Event)
    requires Inv(s) && Enabled(s, e) && e.t in Apply(s, e).calls
    ensures CopyOk(Apply(s, e), Apply(s, e).calls[e.t])
  {
    if e.t in s.calls {
      assert CopyOk(s, s.calls[e.t]);
      hide LocksOk;
      assert s.calls[e.t].target != s.calls[e.t].source;
    }
  }

  lemma OtherStepKeepsCopy(s: State, e: Event, t: Thread)
    requires Inv(s) && Enabled(s, e) && t != e.t && t in s.calls
    ensures CopyOk(Apply(s, e), s.calls[t])
  {
    assert CopyOk(s, s.calls[t]);
    if e.t in s.calls {
      HeldDisjoint(s, t, e.t);
      assert Copying(s.calls[e.t]) ==> s.calls[e.t].target in Held(s.calls[e.t]);
      assert Copying(s.calls[t]) ==> s.calls[t].source in Held(s.calls[t]);
      assert Copying(s.calls[t]) || s.calls[t].SourceReleased? ==> s.calls[t].target in Held(s.calls[t]);
    }
  }

  lemma ReachableInv(s: State)
    requires Reachable(s)
    ensures Inv(s)
  {
    var init, run :| Initial(init) && Valid(Enabled, Apply, init, run) && After(Apply, init, run) == s;
    assert Inv(init);
    hide Inv, Enabled, Apply, Initial;
    forall t: State, e: Event | Inv(t) && Enabled(t, e) ensures Inv(Apply(t, e)) {
      StepKeepsInv(t, e);
    }
    Invariant(Enabled, Apply, Inv, init, run);
  }

  // ---- Safety ----

  /** Copies that share an entity never overlap. */
  lemma CopiesDoNotOverlap(s: State, t: Thread, u: Thread)
    requires Reachable(s) && t != u
    requires t in s.calls && u in s.calls && Copying(s.calls[t]) && Copying(s.calls[u])
    ensures {s.calls[t].target, s.calls[t].source} !! {s.calls[u].target, s.calls[u].source}
  {
    ReachableInv(s);
    HeldDisjoint(s, t, u);
  }

  /** A thread that waits in lock() holds no lock. */
  lemma NoHoldAndWait(s: State, t: Thread, e: Entity)
    requires Reachable(s) && t in s.calls && !Enabled(s, LockTarget(t)) && s.calls[t].Wanting?
    ensures e in s.owner ==> s.owner[e] != t
  {
    ReachableInv(s);
  }

  /** The copy is as if done at once when both locks were there: from its end until the call completes
      the target is locked, is dirty as the source was then, and is fetched if either was; and as long as
      the source is locked too, it has not changed. */
  lemma CopyIsAtomic(s: State, t: Thread)
    requires Reachable(s) && t in s.calls && (s.calls[t].DirtyCopied? || Enabled(s, UnlockTarget(t)))
    ensures var p := s.calls[t];
            && TargetDone(s, p.target, p.was) && p.target in s.owner && s.owner[p.target] == t
            && (p.DirtyCopied? ==>
                  && (p.source in s.dirty <==> p.was.sourceDirty) && (p.source in s.fetched <==> p.was.sourceFetched)
                  && p.source in s.owner && s.owner[p.source] == t)
  {
    ReachableInv(s);
    assert CopyOk(s, s.calls[t]);
    assert s.calls[t].target in Held(s.calls[t]);
    assert s.calls[t].DirtyCopied? ==> s.calls[t].source in Held(s.calls[t]);
  }

  // ---- One call from its beginning to its end ----

  /** Event `i` of the run took the second lock, at a moment when the flags were those of `was`. */
  ghost predicate TookBoth(s: State, run: seq<Event>, i: nat, t: Thread, a: Entity, b: Entity, was: Snapshot) {
    i < |run| && run[i] == TryLockSource(t) &&
    var m := After(Apply, s, run[..i]);
    && b !in m.owner
    && was == Snapshot(b in m.dirty, b in m.fetched, a in m.fetched)
  }

  predicate NoBeginOf(run: seq<Event>, t: Thread) { forall i :: 0 <= i < |run| ==> !(run[i].Begin? && run[i].t == t) }

  lemma TookBothBefore(s: State, run: seq<Event>, e: Event, i: nat, t: Thread, a: Entity, b: Entity, was: Snapshot)
    requires TookBoth(s, run, i, t, a, b, was)
    ensures TookBoth(s, run + [e], i, t, a, b, was)
  {
    assert (run + [e])[..i] == run[..i];
  }

  /** The thread's place in a call that copies `b` into `a`: its flags are those of when it took both locks. */
  ghost predicate InCall(s: State, run: seq<Event>, t: Thread, a: Entity, b: Entity) {
    var s' := After(Apply, s, run);
    t in s'.calls ==>
      && s'.calls[t].target == a && s'.calls[t].source == b
      && (Copying(s'.calls[t]) || s'.calls[t].SourceReleased? ==>
            exists i :: TookBoth(s, run, i, t, a, b, s'.calls[t].was))
  }

  lemma StepInCall(s: State, run: seq<Event>, e: Event, t: Thread, a: Entity, b: Entity)
    requires InCall(s, run, t, a, b) && Enabled(After(Apply, s, run), e) && !(e.Begin? && e.t == t)
    ensures InCall(s, run + [e], t, a, b)
  {
    var s' := After(Apply, s, run);
    Extend(Enabled, Apply, s, run, e);
    assert (run + [e])[..|run|] == run;
    if t in s'.calls && e.t == t && e.TryLockSource? && b !in s'.owner {
      assert TookBoth(s, run + [e], |run|, t, a, b, Apply(s', e).calls[t].was);
    } else if t in s'.calls && (Copying(s'.calls[t]) || s'.calls[t].SourceReleased?) {
      var i :| TookBoth(s, run, i, t, a, b, s'.calls[t].was);
      TookBothBefore(s, run, e, i, t, a, b, s'.calls[t].was);
    }
  }

  lemma {:induction false} StaysInCall(s: State, run: seq<Event>, t: Thread, a: Entity, b: Entity)
    requires InCall(s, [], t, a, b) && Valid(Enabled, Apply, s, run) && NoBeginOf(run, t)
    ensures InCall(s, run, t, a, b)
  {
    hide InCall, Enabled, Apply;
    if run != [] {
      var n := |run| - 1;
      StaysInCall(s, run[..n], t, a, b);
      StepInCall(s, run[..n], run[n], t, a, b);
      assert run == run[..n] + [run[n]];
    }
  }

  /** While a call that began with target `a` and source `b` is under way, it is about these two. */
  lemma CallKeepsItsPair(init: State, run: seq<Event>, t: Thread, a: Entity, b: Entity)
    requires Enabled(init, Begin(t, a, b)) && a != b
    requires Valid(Enabled, Apply, Apply(init, Begin(t, a, b)), run) && NoBeginOf(run, t)
    ensures var s := After(Apply, Apply(init, Begin(t, a, b)), run);
            t in s.calls ==> s.calls[t].target == a && s.calls[t].source == b
  {
    StaysInCall(Apply(init, Begin(t, a, b)), run, t, a, b);
  }

  /** When a call that began with target `a` and source `b` completes, `a` is dirty exactly if `b` was, and
      fetched exactly if `a` or `b` was, at the moment the call took both locks. */
  lemma CallCopiesSource(init: State, run: seq<Event>, t: Thread, a: Entity, b: Entity) returns (i: nat)
    requires Reachable(init) && Enabled(init, Begin(t, a, b)) && a != b
    requires var first := Apply(init, Begin(t, a, b));
             && Valid(Enabled, Apply, first, run) && NoBeginOf(run, t)
             && Enabled(After(Apply, first, run), UnlockTarget(t))
    ensures i < |run| && run[i] == TryLockSource(t)
    ensures var first := Apply(init, Begin(t, a, b));
            var both := After(Apply, first, run[..i]);
            var done := Apply(After(Apply, first, run), UnlockTarget(t));
            && t !in done.calls && b !in both.owner
            && (a in done.dirty <==> b in both.dirty)
            && (a in done.fetched <==> a in both.fetched || b in both.fetched)
  {
    var first := Apply(init, Begin(t, a, b));
    var s := After(Apply, first, run);
    StaysInCall(first, run, t, a, b);
    i :| TookBoth(first, run, i, t, a, b, s.calls[t].was);
    ReachableAfter(init, Begin(t, a, b), run);
    CopyIsAtomic(s, t);
  }

  lemma ReachableAfter(s: State, e: Event, run: seq<Event>)
    requires Reachable(s) && Enabled(s, e) && Valid(Enabled, Apply, Apply(s, e), run)
    ensures Reachable(After(Apply, Apply(s, e), run))
  {
    var init, before :| Initial(init) && Valid(Enabled, Apply, init, before) && After(Apply, init, before) == s;
    hide *;
    Extend(Enabled, Apply, init, before, e);
    Concat(Enabled, Apply, init, before + [e], run);
    ReachedBy(init, before + [e] + run);
  }

  lemma ReachedBy(init: State, run: seq<Event>)
    requires Initial(init) && Valid(Enabled, Apply, init, run)
    ensures Reachable(After(Apply, init, run))
  {
  }

  lemma WritesTargetOnly(s: State, e: Event, x: Entity)
    requires Enabled(s, e) && !e.Begin? && s.calls[e.t].target != x
    ensures x in Apply(s, e).dirty <==> x in s.dirty
    ensures x in Apply(s, e).fetched <==> x in s.fetched
  {
  }

  /** No step of the call writes the flags of any entity but `a`: the source keeps its own. */
  lemma CallWritesTargetOnly(init: State, run: seq<Event>, i: nat, t: Thread, a: Entity, b: Entity, x: Entity)
    requires Enabled(init, Begin(t, a, b)) && a != b && x != a
    requires Valid(Enabled, Apply, Apply(init, Begin(t, a, b)), run) && NoBeginOf(run, t)
    requires i < |run| && run[i].t == t
    ensures var before := After(Apply, Apply(init, Begin(t, a, b)), run[..i]);
            var after := After(Apply, Apply(init, Begin(t, a, b)), run[..i + 1]);
            (x in after.dirty <==> x in before.dirty) && (x in after.fetched <==> x in before.fetched)
  {
    var begun := Begin(t, a, b);
    NoBeginAt(run, t, i);
    hide *;
    StepAt(Enabled, Apply, Apply(init, begun), run, i);
    CallKeepsItsPair(init, run[..i], t, a, b);
    StepOfCall(After(Apply, Apply(init, begun), run[..i]), run[i]);
    WritesTargetOnly(After(Apply, Apply(init, begun), run[..i]), run[i], x);
  }

  lemma NoBeginAt(run: seq<Event>, t: Thread, i: nat)
    requires NoBeginOf(run, t) && i < |run|
    ensures NoBeginOf(run[..i], t) && (run[i].t == t ==> !run[i].Begin?)
  {
  }

  lemma StepOfCall(s: State, e: Event)
    requires Enabled(s, e) && !e.Begin?
    ensures e.t in s.calls
  {
  }

  // ---- Completion ----

  predicate NoBegin(run: seq<Event>) { forall i :: 0 <= i < |run| ==> !run[i].Begin? }

  /** `run` leads from `s` to `u` without new calls. */
  ghost predicate Leads(s: State, run: seq<Event>, u: State) {
    Valid(Enabled, Apply, s, run) && After(Apply, s, run) == u && NoBegin(run)
  }

  lemma LeadsFirst(s: State, e: Event, rest: seq<Event>, u: State)
    requires Enabled(s, e) && !e.Begin? && Leads(Apply(s, e), rest, u)
    ensures Leads(s, [e] + rest, u)
  {
    Cons(Enabled, Apply, s, e, rest);
  }

  lemma LeadsThen(s: State, first: seq<Event>, t: State, second: seq<Event>, u: State)
    requires Leads(s, first, t) && Leads(t, second, u)
    ensures Leads(s, first + second, u)
  {
    Concat(Enabled, Apply, s, first, second);
  }

  /** The next event of a call that holds both locks or is giving them back. */
  function NextOf(t: Thread, p: Phase): Event {
    match p
    case HoldingBoth(_, _, _) => CopyFetched(t)
    case FetchedCopied(_, _, _) => CopyDirty(t)
    case DirtyCopied(_, _, _) => UnlockSource(t)
    case _ => UnlockTarget(t)
  }

  function StepsLeft(p: Phase): nat {
    if p.HoldingBoth? then 4 else if p.FetchedCopied? then 3 else if p.DirtyCopied? then 2 else 1
  }

  predicate PastTry(p: Phase) { Copying(p) || p.SourceReleased? }

  /** A call that got both locks runs to its end by itself. */
  lemma FinishCall(s: State, t: Thread) returns (run: seq<Event>, u: State)
    requires Inv(s) && t in s.calls && PastTry(s.calls[t])
    ensures Leads(s, run, u) && Inv(u) && u.calls == s.calls - {t}
    decreases StepsLeft(s.calls[t])
  {
    var e := NextOf(t, s.calls[t]);
    var s' := Apply(s, e);
    StepKeepsInv(s, e);
    if t in s'.calls {
      assert s'.calls - {t} == s.calls - {t};
      run, u := FinishCall(s', t);
    } else {
      run, u := [], s';
    }
    LeadsFirst(s, e, run, u);
    run := [e] + run;
  }

  function Holders(s: State): set<Thread> { set t | t in s.calls && Held(s.calls[t]) != {} }

  ghost predicate Closer(u: State, s: State) {
    |u.calls| < |s.calls| || (|u.calls| == |s.calls| && |Holders(u)| < |Holders(s)|)
  }

  lemma RemovedIsCloser(s: State, t: Thread, u: State)
    requires t in s.calls && u.calls == s.calls - {t}
    ensures Closer(u, s)
  {
    assert u.calls.Keys == s.calls.Keys - {t};
  }

  lemma BackedOffIsCloser(s: State, t: Thread, u: State)
    requires t in s.calls && Held(s.calls[t]) != {}
    requires u.calls == s.calls[t := Wanting(s.calls[t].target, s.calls[t].source)]
    ensures Closer(u, s)
  {
    assert u.calls.Keys == s.calls.Keys;
    assert Holders(u) == Holders(s) - {t};
  }

  /** The thread has finished, or is back at its beginning. */
  predicate Settled(s: State, t: Thread, u: State)
    requires t in s.calls
  {
    u.calls == s.calls - {t} || u.calls == s.calls[t := Wanting(s.calls[t].target, s.calls[t].source)]
  }

  lemma SettledIsCloser(s: State, t: Thread, u: State)
    requires t in s.calls && Held(s.calls[t]) != {} && Settled(s, t, u)
    ensures Closer(u, s)
  {
    hide Closer;
    if u.calls == s.calls - {t} {
      RemovedIsCloser(s, t, u);
    } else {
      BackedOffIsCloser(s, t, u);
    }
  }

  /** A thread that holds its target either gets the source too and finishes, or backs off. */
  lemma SettleHolder(s: State, t: Thread) returns (run: seq<Event>, u: State)
    requires Inv(s) && t in s.calls && Held(s.calls[t]) != {}
    ensures Leads(s, run, u) && Inv(u) && Closer(u, s) && Settled(s, t, u)
  {
    hide Inv, Closer, Leads;
    var p := s.calls[t];
    if PastTry(p) {
      run, u := FinishCall(s, t);
    } else if p.BackingOff? {
      run, u := GiveBackRun(s, t);
    } else {
      run, u := TryAndSettle(s, t);
    }
    SettledIsCloser(s, t, u);
  }

  lemma TryAndSettle(s: State, t: Thread) returns (run: seq<Event>, u: State)
    requires Inv(s) && t in s.calls && s.calls[t].HoldingTarget?
    ensures Leads(s, run, u) && Inv(u) && Settled(s, t, u)
  {
    var e := TryLockSource(t);
    var s' := Apply(s, e);
    StepKeepsInv(s, e);
    hide Inv;
    assert s'.calls - {t} == s.calls - {t};
    if s'.calls[t].BackingOff? {
      run, u := GiveBackRun(s', t);
    } else {
      run, u := FinishCall(s', t);
    }
    LeadsFirst(s, e, run, u);
    run := [e] + run;
  }

  lemma GiveBackRun(s: State, t: Thread) returns (run: seq<Event>, u: State)
    requires Inv(s) && t in s.calls && s.calls[t].BackingOff?
    ensures Leads(s, run, u) && Inv(u)
    ensures u.calls == s.calls[t := Wanting(s.calls[t].target, s.calls[t].source)]
  {
    u := Apply(s, GiveBack(t));
    StepKeepsInv(s, GiveBack(t));
    LeadsFirst(s, GiveBack(t), [], u);
    run := [GiveBack(t)] + [];
  }

  /** When nobody holds a lock, any waiting thread can run to its end. */
  lemma FinishAlone(s: State, t: Thread) returns (run: seq<Event>, u: State)
    requires Inv(s) && t in s.calls && Holders(s) == {}
    ensures Leads(s, run, u) && Inv(u) && Closer(u, s)
  {
    assert t !in Holders(s);
    assert s.owner == map[] by {
      assert forall e :: e in s.owner ==> s.owner[e] in Holders(s);
    }
    var locked := Apply(s, LockTarget(t));
    StepKeepsInv(s, LockTarget(t));
    var both := Apply(locked, TryLockSource(t));
    StepKeepsInv(locked, TryLockSource(t));
    assert both.calls - {t} == s.calls - {t};
    run, u := FinishCall(both, t);
    LeadsFirst(locked, TryLockSource(t), run, u);
    LeadsFirst(s, LockTarget(t), [TryLockSource(t)] + run, u);
    run := [LockTarget(t)] + ([TryLockSource(t)] + run);
    RemovedIsCloser(s, t, u);
  }

  lemma {:induction false} CompletionRun(s: State) returns (run: seq<Event>, u: State)
    requires Inv(s)
    ensures Leads(s, run, u) && u.calls == map[]
    decreases |s.calls|, |Holders(s)|
  {
    if s.calls == map[] {
      return [], s;
    }
    var first, t;
    if h :| h in Holders(s) {
      first, t := SettleHolder(s, h);
    } else {
      var w :| w in s.calls;
      first, t := FinishAlone(s, w);
    }
    var rest;
    rest, u := CompletionRun(t);
    LeadsThen(s, first, t, rest, u);
    run := first + rest;
  }

  /** From every reachable state some continuation, without new calls, completes all started updates. */
  lemma CanAlwaysComplete(s: State)
    requires Reachable(s)
    ensures exists run :: Valid(Enabled, Apply, s, run) && NoBegin(run) && After(Apply, s, run).calls == map[]
  {
    ReachableInv(s);
    var run, u := CompletionRun(s);
  }

  // ---- When completion is forced ----

  /** While `u` is in its call, it can hold the source of `t` without holding the target of `t`. */
  predicate Blocks(u: Phase, t: Phase) {
    && !PastTry(t)
    && (t.source == u.target || (t.source == u.source && t.target != u.target && !u.SourceReleased?))
  }

  /** Some call can be kept from its source by another. */
  ghost predicate Contended(s: State) {
    exists t, u :: t in s.calls && u in s.calls && t != u && Blocks(s.calls[u], s.calls[t])
  }

  ghost predicate LastsFor(s: State, n: nat) {
    exists run :: Valid(Enabled, Apply, s, run) && NoBegin(run) && |run| >= n
  }

  /** The started calls can go on for as many steps as one likes. */
  ghost predicate Endless(s: State) { forall n: nat :: LastsFor(s, n) }

  // Without contention every step brings its thread closer to the end of its call.

  lemma StepKeepsUncontended(s: State, e: Event)
    requires !Contended(s) && Enabled(s, e) && !e.Begin?
    ensures !Contended(Apply(s, e))
  {
    var s' := Apply(s, e);
    forall t, u | t in s'.calls && u in s'.calls && t != u ensures !Blocks(s'.calls[u], s'.calls[t]) {
      assert !Blocks(s.calls[u], s.calls[t]);
    }
  }

  lemma UncontendedTrySucceeds(s: State, t: Thread)
    requires Inv(s) && !Contended(s) && Enabled(s, TryLockSource(t))
    ensures s.calls[t].source !in s.owner
  {
    var p := s.calls[t];
    assert p.target in Held(p);
    if p.source in s.owner {
      var u := s.owner[p.source];
      assert p.source in Held(s.calls[u]) && p.source !in Held(p);
      HeldDisjoint(s, t, u);
      assert Blocks(s.calls[u], p);
    }
  }

  function Weight(p: Phase): nat {
    match p
    case BackingOff(_, _) => 7
    case Wanting(_, _) => 6
    case HoldingTarget(_, _) => 5
    case HoldingBoth(_, _, _) => 4
    case FetchedCopied(_, _, _) => 3
    case DirtyCopied(_, _, _) => 2
    case SourceReleased(_, _, _) => 1
  }

  /** As many tokens for each thread as its call weighs. */
  function Tokens(s: State): set<(Thread, int)> {
    set t, k | t in s.calls && 1 <= k <= Weight(s.calls[t]) :: (t, k)
  }

  lemma {:induction false} SmallerSet<T>(a: set<T>, b: set<T>)
    requires a <= b
    ensures |a| <= |b|
  {
    if a != {} {
      var x :| x in a;
      SmallerSet(a - {x}, b - {x});
    }
  }

  /** The call of `t` has got lighter, or is over. */
  predicate Lightened(s: State, t: Thread, u: State) {
    && t in s.calls
    && (u.calls == s.calls - {t}
        || (t in u.calls && u.calls == s.calls[t := u.calls[t]] && Weight(u.calls[t]) < Weight(s.calls[t])))
  }

  lemma StepLightens(s: State, e: Event)
    requires Inv(s) && !Contended(s) && Enabled(s, e) && !e.Begin?
    ensures Lightened(s, e.t, Apply(s, e))
  {
    if e.TryLockSource? {
      UncontendedTrySucceeds(s, e.t);
    }
    hide Inv, Contended;
  }

  lemma LighterHasFewerTokens(s: State, t: Thread, u: State)
    requires Lightened(s, t, u)
    ensures |Tokens(u)| < |Tokens(s)|
  {
    var token := (t, Weight(s.calls[t]));
    assert token in Tokens(s) && token !in Tokens(u);
    hide Weight;
    SmallerSet(Tokens(u), Tokens(s) - {token});
  }

  lemma {:induction false} RunTakesTokens(s: State, run: seq<Event>)
    requires Inv(s) && !Contended(s) && Valid(Enabled, Apply, s, run) && NoBegin(run)
    ensures var u := After(Apply, s, run); Inv(u) && !Contended(u) && |run| + |Tokens(u)| <= |Tokens(s)|
  {
    if run != [] {
      var n := |run| - 1;
      assert NoBegin(run[..n]) && !run[n].Begin?;
      hide Inv, Contended, Enabled, Apply, Tokens, NoBegin, Lightened;
      RunTakesTokens(s, run[..n]);
      var u := After(Apply, s, run[..n]);
      StepKeepsInv(u, run[n]);
      StepKeepsUncontended(u, run[n]);
      StepLightens(u, run[n]);
      LighterHasFewerTokens(u, run[n].t, Apply(u, run[n]));
    }
  }

  /** A run that cannot go on without new calls has completed them all. */
  lemma StuckOnlyWhenComplete(s: State)
    requires Inv(s) && (forall e :: Enabled(s, e) ==> e.Begin?)
    ensures s.calls == map[]
  {
    var run, u := CompletionRun(s);
    if run != [] {
      assert run == [run[0]] + run[1..];
      Cons(Enabled, Apply, s, run[0], run[1..]);
    }
  }

  // With contention one of the two can stand in the other's way for ever.

  lemma OneStep(s: State, e: Event) returns (run: seq<Event>, u: State)
    requires Inv(s) && Enabled(s, e) && !e.Begin?
    ensures run == [e] && u == Apply(s, e) && Leads(s, run, u) && Inv(u)
  {
    run, u := [e], Apply(s, e);
    StepKeepsInv(s, e);
    LeadsFirst(s, e, [], u);
    assert [e] + [] == [e];
  }

  /** Locking the target, failing to get the source and giving the target back changes nothing. */
  lemma BackOffLoop(s: State, t: Thread) returns (run: seq<Event>)
    requires Inv(s) && t in s.calls && s.calls[t].Wanting?
    requires s.calls[t].target !in s.owner && s.calls[t].source in s.owner
    ensures Leads(s, run, s) && run != []
  {
    var locked := Apply(s, LockTarget(t));
    var failed := Apply(locked, TryLockSource(t));
    var back := Apply(failed, GiveBack(t));
    assert back.owner == s.owner && back.calls == s.calls;
    LeadsFirst(failed, GiveBack(t), [], s);
    LeadsFirst(locked, TryLockSource(t), [GiveBack(t)] + [], s);
    LeadsFirst(s, LockTarget(t), [TryLockSource(t)] + ([GiveBack(t)] + []), s);
    run := [LockTarget(t)] + ([TryLockSource(t)] + ([GiveBack(t)] + []));
  }

  lemma {:induction false} Repeat(s: State, loop: seq<Event>, n: nat) returns (run: seq<Event>)
    requires Leads(s, loop, s) && loop != []
    ensures Leads(s, run, s) && |run| >= n
  {
    hide Leads;
    if n == 0 {
      return loop;
    }
    var rest := Repeat(s, loop, n - 1);
    LeadsThen(s, loop, s, rest, s);
    run := loop + rest;
  }

  lemma SettledHolds(s: State, w: Thread, v: State, t: Thread, u: Thread)
    requires w in Holders(s) && Settled(s, w, v) && w != t && w != u && t in s.calls && u in s.calls
    ensures t in v.calls && u in v.calls && v.calls[t] == s.calls[t] && v.calls[u] == s.calls[u]
    ensures |Holders(v) - {t, u}| < |Holders(s) - {t, u}|
  {
    assert Holders(v) == Holders(s) - {w};
    assert Holders(v) - {t, u} == Holders(s) - {t, u} - {w};
  }

  /** All threads but two give back what they hold, or finish. */
  lemma {:induction false} SettleOthers(s: State, t: Thread, u: Thread) returns (run: seq<Event>, v: State)
    requires Inv(s) && t in s.calls && u in s.calls
    ensures Leads(s, run, v) && Inv(v) && Holders(v) <= {t, u}
    ensures t in v.calls && u in v.calls && v.calls[t] == s.calls[t] && v.calls[u] == s.calls[u]
    decreases |Holders(s) - {t, u}|
  {
    if w :| w in Holders(s) && w != t && w != u {
      var first, mid := SettleHolder(s, w);
      SettledHolds(s, w, mid, t, u);
      hide Holders, Settled, Inv, Leads, Closer;
      var rest;
      rest, v := SettleOthers(mid, t, u);
      LeadsThen(s, first, mid, rest, v);
      run := first + rest;
    } else {
      run, v := [], s;
    }
  }

  /** Only `t` and `u` hold locks, and `u` holds the source of `t`, but not its target. */
  ghost predicate InTheWay(s: State, t: Thread, u: Thread) {
    && Inv(s) && t in s.calls && u in s.calls && t != u && Holders(s) <= {t, u} && !PastTry(s.calls[t])
    && s.calls[t].source in Held(s.calls[u]) && s.calls[t].target !in Held(s.calls[u])
  }

  lemma FreeUnlessHeld(s: State, t: Thread, u: Thread, e: Entity)
    requires Inv(s) && t in s.calls && u in s.calls && Holders(s) <= {t, u}
    requires e !in Held(s.calls[t]) && e !in Held(s.calls[u])
    ensures e !in s.owner
  {
    assert forall w :: w in s.calls && e in Held(s.calls[w]) ==> w in Holders(s);
  }

  /** The next event by which `u` comes to hold the source of `t`, but not its target. */
  function Approach(u: Thread, p: Phase): Event {
    match p
    case BackingOff(_, _) => GiveBack(u)
    case Wanting(_, _) => LockTarget(u)
    case HoldingTarget(_, _) => TryLockSource(u)
    case HoldingBoth(_, _, _) => CopyFetched(u)
    case FetchedCopied(_, _, _) => CopyDirty(u)
    case _ => UnlockSource(u)
  }

  /** A blocking thread that does not stand in the way yet can take a step towards it. */
  lemma ApproachStep(s: State, t: Thread, u: Thread)
    requires Inv(s) && t in s.calls && u in s.calls && t != u && Holders(s) <= {t, u}
    requires Blocks(s.calls[u], s.calls[t]) && !InTheWay(s, t, u)
    ensures var e := Approach(u, s.calls[u]);
            && Enabled(s, e) && !e.Begin?
            && var v := Apply(s, e);
               && v.calls == s.calls[u := v.calls[u]] && Holders(v) <= {t, u}
               && Blocks(v.calls[u], v.calls[t]) && Weight(v.calls[u]) < Weight(s.calls[u])
  {
    var p, q := s.calls[t], s.calls[u];
    var e := Approach(u, q);
    assert p.target != p.source && q.target != q.source;
    if q.Wanting? {
      FreeUnlessHeld(s, t, u, q.target);
    } else if q.HoldingTarget? {
      FreeUnlessHeld(s, t, u, q.source);
    }
    var v := Apply(s, e);
    hide Inv;
    forall w | w in v.calls && Held(v.calls[w]) != {} ensures w in {t, u} {
      assert w != u ==> w in Holders(s);
    }
  }

  lemma {:induction false} ComeInTheWay(s: State, t: Thread, u: Thread) returns (run: seq<Event>, v: State)
    requires Inv(s) && t in s.calls && u in s.calls && t != u && Holders(s) <= {t, u}
    requires Blocks(s.calls[u], s.calls[t])
    ensures Leads(s, run, v) && InTheWay(v, t, u)
    decreases Weight(s.calls[u])
  {
    if InTheWay(s, t, u) {
      return [], s;
    }
    ApproachStep(s, t, u);
    hide InTheWay, Inv, Blocks, Apply, Enabled;
    var first, mid := OneStep(s, Approach(u, s.calls[u]));
    var rest;
    rest, v := ComeInTheWay(mid, t, u);
    LeadsThen(s, first, mid, rest, v);
    run := first + rest;
  }

  /** A thread in whose way another stands comes back to where it waits for its target. */
  lemma ComeBack(s: State, t: Thread, u: Thread) returns (run: seq<Event>, v: State)
    requires InTheWay(s, t, u)
    ensures Leads(s, run, v) && InTheWay(v, t, u) && v.calls[t].Wanting?
    decreases if s.calls[t].Wanting? then 0 else if s.calls[t].BackingOff? then 1 else 2
  {
    var p := s.calls[t];
    if p.Wanting? {
      return [], s;
    }
    assert p.source in s.owner;
    var e := if p.BackingOff? then GiveBack(t) else TryLockSource(t);
    var first, mid := OneStep(s, e);
    assert Holders(mid) <= Holders(s);
    var rest;
    rest, v := ComeBack(mid, t, u);
    LeadsThen(s, first, mid, rest, v);
    run := first + rest;
  }

  /** Where two calls are contended, one can be led to a place from which it fails and comes back to
      exactly the same state. */
  lemma BackOffCanRepeat(s: State, t: Thread, u: Thread)
      returns (first: seq<Event>, v: State, loop: seq<Event>)
    requires Reachable(s) && t in s.calls && u in s.calls && t != u && Blocks(s.calls[u], s.calls[t])
    ensures Leads(s, first, v) && Leads(v, loop, v) && loop != []
  {
    ReachableInv(s);
    hide Reachable, InTheWay, Leads;
    var a, s1 := SettleOthers(s, t, u);
    var b, s2 := ComeInTheWay(s1, t, u);
    var c;
    c, v := ComeBack(s2, t, u);
    LeadsThen(s, a, s1, b, s2);
    LeadsThen(s, a + b, s2, c, v);
    first := a + b + c;
    TargetIsFree(v, t, u);
    loop := BackOffLoop(v, t);
  }

  lemma TargetIsFree(s: State, t: Thread, u: Thread)
    requires InTheWay(s, t, u) && s.calls[t].Wanting?
    ensures Inv(s) && t in s.calls && s.calls[t].target !in s.owner && s.calls[t].source in s.owner
  {
    FreeUnlessHeld(s, t, u, s.calls[t].target);
  }

  /** The started calls can go on for ever exactly if two of them are contended; otherwise every run of
      them is at most as long as they weigh, and one that cannot go on has completed them all. */
  lemma EndlessIffContended(s: State)
    requires Reachable(s)
    ensures Endless(s) <==> Contended(s)
    ensures !Contended(s) ==>
              forall run :: Valid(Enabled, Apply, s, run) && NoBegin(run) ==>
                && |run| <= |Tokens(s)|
                && ((forall e :: Enabled(After(Apply, s, run), e) ==> e.Begin?) ==> After(Apply, s, run).calls == map[])
  {
    ReachableInv(s);
    if Contended(s) {
      var t, u :| t in s.calls && u in s.calls && t != u && Blocks(s.calls[u], s.calls[t]);
      ContendedLasts(s, t, u);
    } else {
      hide Inv, Enabled, Apply, Tokens, Contended, NoBegin;
      forall run | Valid(Enabled, Apply, s, run) && NoBegin(run)
        ensures |run| <= |Tokens(s)|
        ensures (forall e :: Enabled(After(Apply, s, run), e) ==> e.Begin?) ==> After(Apply, s, run).calls == map[]
      {
        RunTakesTokens(s, run);
        if forall e :: Enabled(After(Apply, s, run), e) ==> e.Begin? {
          StuckOnlyWhenComplete(After(Apply, s, run));
        }
      }
      assert !LastsFor(s, |Tokens(s)| + 1);
    }
  }

  lemma ContendedLasts(s: State, t: Thread, u: Thread)
    requires Reachable(s) && t in s.calls && u in s.calls && t != u && Blocks(s.calls[u], s.calls[t])
    ensures Endless(s)
  {
    var first, v, loop := BackOffCanRepeat(s, t, u);
    forall n: nat ensures LastsFor(s, n) {
      var run := Repeat(v, loop, n);
      LeadsThen(s, first, v, run, v);
    }
  }

  /** Contention arises: two threads that update two entities from each other. */
  lemma OppositeUpdatesContend(init: State, t: Thread, u: Thread, a: Entity, b: Entity)
    requires Initial(init) && t != u && a != b
    ensures var run := [Begin(t, a, b), Begin(u, b, a)];
            Valid(Enabled, Apply, init, run) && Contended(After(Apply, init, run)) && Endless(After(Apply, init, run))
  {
    var first, second := Begin(t, a, b), Begin(u, b, a);
    var run := [first, second];
    assert run == [] + [first] + [second];
    Extend(Enabled, Apply, init, [], first);
    Extend(Enabled, Apply, init, [] + [first], second);
    var s := After(Apply, init, run);
    assert s.calls == map[t := Wanting(a, b), u := Wanting(b, a)];
    assert Blocks(s.calls[u], s.calls[t]);
    assert Reachable(s);
    EndlessIffContended(s);
  }

  // ---- The steps of updateFrom ----

  /** The call of thread `t` copies `b` into `a`. */
  predicate At(s: State, t: Thread, a: Entity, b: Entity) {
    t in s.calls && s.calls[t].target == a && s.calls[t].source == b
  }

  /** The entities' locks and flags. Each method is one step of a thread inside updateFrom; between any
      two of them other threads take theirs. */
  class Entities {
    var locked: map<Entity, Thread>
    var dirty: set<Entity>
    var fetched: set<Entity>
    ghost var calls: map<Thread, Phase>

    ghost function View(): State
      reads this
    {
      State(locked, dirty, fetched, calls)
    }

    constructor (dirty: set<Entity>, fetched: set<Entity>)
      ensures Initial(View()) && Inv(View()) && this.dirty == dirty && this.fetched == fetched
    {
      locked, calls := map[], map[];
      this.dirty, this.fetched := dirty, fetched;
    }

    /** Updating an entity from itself is no call at all. */
    method Begin(t: Thread, a: Entity, b: Entity) returns (begun: bool)
      requires Inv(View()) && t !in calls
      modifies this`calls
      ensures View() == Apply(old(View()), Event.Begin(t, a, b)) && Inv(View())
      ensures begun <==> a != b
      ensures begun ==> At(View(), t, a, b) && calls[t].Wanting?
      ensures forall u :: u != t ==> (u in calls <==> u in old(calls)) && (u in calls ==> calls[u] == old(calls)[u])
    {
      StepKeepsInv(View(), Event.Begin(t, a, b));
      hide Inv;
      if a == b {
        return false;
      }
      calls := calls[t := Wanting(a, b)];
      begun := true;
    }

    method Lock(t: Thread, a: Entity, ghost b: Entity)
      requires Inv(View()) && At(View(), t, a, b) && Enabled(View(), LockTarget(t))
      modifies this`locked, this`calls
      ensures View() == Apply(old(View()), LockTarget(t)) && Inv(View())
    {
      StepKeepsInv(View(), LockTarget(t));
      hide Inv;
      locked := locked[a := t];
      calls := calls[t := HoldingTarget(a, b)];
    }

    /** On failure the caller must give the target back and start over. */
    method TryLock(t: Thread, ghost a: Entity, b: Entity) returns (taken: bool)
      requires Inv(View()) && At(View(), t, a, b) && Enabled(View(), TryLockSource(t))
      modifies this`locked, this`calls
      ensures View() == Apply(old(View()), TryLockSource(t)) && Inv(View())
      ensures taken <==> b !in old(locked)
    {
      StepKeepsInv(View(), TryLockSource(t));
      hide Inv;
      taken := b !in locked;
      if taken {
        locked := locked[b := t];
      }
      calls := calls[t := if taken then HoldingBoth(a, b, Snapshot(b in dirty, b in fetched, a in fetched)) else BackingOff(a, b)];
    }

    method GiveTargetBack(t: Thread, a: Entity, ghost b: Entity)
      requires Inv(View()) && At(View(), t, a, b) && Enabled(View(), GiveBack(t))
      modifies this`locked, this`calls
      ensures View() == Apply(old(View()), GiveBack(t)) && Inv(View())
    {
      StepKeepsInv(View(), GiveBack(t));
      hide Inv;
      locked := locked - {a};
      calls := calls[t := Wanting(a, b)];
    }

    method CopyFetchedFlag(t: Thread, a: Entity, b: Entity)
      requires Inv(View()) && At(View(), t, a, b) && Enabled(View(), CopyFetched(t))
      modifies this`fetched, this`calls
      ensures View() == Apply(old(View()), CopyFetched(t)) && Inv(View())
    {
      StepKeepsInv(View(), CopyFetched(t));
      hide Inv;
      if b in fetched {
        fetched := fetched + {a};
      }
      calls := calls[t := FetchedCopied(a, b, calls[t].was)];
    }

    method CopyDirtyFlag(t: Thread, a: Entity, b: Entity)
      requires Inv(View()) && At(View(), t, a, b) && Enabled(View(), CopyDirty(t))
      modifies this`dirty, this`calls
      ensures View() == Apply(old(View()), CopyDirty(t)) && Inv(View())
    {
      StepKeepsInv(View(), CopyDirty(t));
      hide Inv;
      dirty := if b in dirty then dirty + {a} else dirty - {a};
      calls := calls[t := DirtyCopied(a, b, calls[t].was)];
    }

    method ReleaseSource(t: Thread, ghost a: Entity, b: Entity)
      requires Inv(View()) && At(View(), t, a, b) && Enabled(View(), UnlockSource(t))
      modifies this`locked, this`calls
      ensures View() == Apply(old(View()), UnlockSource(t)) && Inv(View())
    {
      StepKeepsInv(View(), UnlockSource(t));
      hide Inv;
      locked := locked - {b};
      calls := calls[t := SourceReleased(a, b, calls[t].was)];
    }

    method ReleaseTarget(t: Thread, a: Entity, ghost b: Entity)
      requires Inv(View()) && At(View(), t, a, b) && Enabled(View(), UnlockTarget(t))
      modifies this`locked, this`calls
      ensures View() == Apply(old(View()), UnlockTarget(t)) && Inv(View())
    {
      StepKeepsInv(View(), UnlockTarget(t));
      hide Inv;
      locked := locked - {a};
      calls := calls - {t};
    }

    /** The copy, and giving both locks back, when nobody comes between its four steps. */
    method CopyAndUnlock(t: Thread, a: Entity, b: Entity)
      requires Inv(View()) && At(View(), t, a, b) && calls[t].HoldingBoth?
      modifies this
      ensures View() == Copied(old(View()), t, a, b) && Inv(View())
    {
      FourSteps(View(), t);
      hide Inv, Apply, Enabled;
      CopyFetchedFlag(t, a, b);
      CopyDirtyFlag(t, a, b);
      ReleaseSource(t, a, b);
      ReleaseTarget(t, a, b);
    }
  }

  /** The target has the source's dirty flag, and is fetched if either was; both locks are back. */
  function Copied(s: State, t: Thread, a: Entity, b: Entity): State {
    State(s.owner - {b} - {a}, Put(s.dirty, a, b in s.dirty), if b in s.fetched then s.fetched + {a} else s.fetched,
          s.calls - {t})
  }

  /** What the four steps after both locks are taken amount to. */
  lemma FourSteps(s: State, t: Thread)
    requires Inv(s) && t in s.calls && s.calls[t].HoldingBoth?
    ensures var a, b := s.calls[t].target, s.calls[t].source;
            var s1 := Apply(s, CopyFetched(t));
            var s2 := Apply(s1, CopyDirty(t));
            var s3 := Apply(s2, UnlockSource(t));
            && Enabled(s, CopyFetched(t)) && Enabled(s1, CopyDirty(t)) && Enabled(s2, UnlockSource(t))
            && Enabled(s3, UnlockTarget(t)) && Apply(s3, UnlockTarget(t)) == Copied(s, t, a, b)
            && At(s1, t, a, b) && At(s2, t, a, b) && At(s3, t, a, b)
  {
    var s3 := Apply(Apply(Apply(s, CopyFetched(t)), CopyDirty(t)), UnlockSource(t));
    assert s3.calls - {t} == s.calls - {t};
    hide Inv;
  }
}
