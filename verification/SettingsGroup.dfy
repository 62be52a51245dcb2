/** The operations of settings groups. A local group at path `p` and the global group it is linked to
    are one pair of nodes; operations of the local group that the source forwards to its global group
    are the Global methods here, and the handlers of the global group's signals are the Hear methods. */
module SettingsGroup {
  import opened Text
  import opened SettingsTree
  import opened SettingsErasure

  datatype NotFoundPolicy = DoNothing | Add | AddGlobalToo

  datatype Storage = LocalStorage | GlobalStorage

  // ---- Deleting values one by one ----

  function ClearedGlobally(s: State, q: Path, gone: set<Name>): State
    requires q in s.global
  {
    var g := s.global[q];
    var local := if q in s.local
                 then s.local[q := s.local[q].(valuesNames := s.local[q].values.Keys + (g.valuesNames - gone))] else s.local;
    s.(global := s.global[q := g.(values := g.values - gone, valuesNames := g.valuesNames - gone)], local := local)
  }

  lemma ClearedGloballyNone(s: State, q: Path)
    requires NodeOk(s, q) && q in s.global
    ensures ClearedGlobally(s, q, {}) == s
  {
    var g := s.global[q];
    assert g.values - {} == g.values && g.valuesNames - {} == g.valuesNames;
    assert s.global[q := g] == s.global;
    if q in s.local {
      assert s.local[q := s.local[q]] == s.local;
    }
  }

  lemma ClearedGloballyStep(s: State, q: Path, gone: set<Name>, v: Name)
    requires NodeOk(s, q) && q in s.global && v in s.global[q].values && v !in gone
    ensures SetGlobal(ClearedGlobally(s, q, gone), q, v, Invalid) == ClearedGlobally(s, q, gone + {v})
  {
    var g := s.global[q];
    var t := SetGlobal(ClearedGlobally(s, q, gone), q, v, Invalid);
    var u := ClearedGlobally(s, q, gone + {v});
    assert g.values - gone - {v} == g.values - (gone + {v});
    assert g.valuesNames - gone - {v} == g.valuesNames - (gone + {v});
    assert t.global == u.global;
    if q in s.local {
      var own := s.local[q].values.Keys;
      assert (if v in own then own + (g.valuesNames - gone) else own + (g.valuesNames - gone) - {v})
          == own + (g.valuesNames - (gone + {v}));
      assert t.local == u.local;
    }
  }

  lemma ClearedGloballyAll(s: State, q: Path)
    requires NodeOk(s, q) && q in s.global
    ensures ClearedGlobally(s, q, s.global[q].valuesNames) == ClearGlobal(s, q)
  {
    var g := s.global[q];
    assert g.values - g.valuesNames == map[] && g.valuesNames - g.valuesNames == {};
    if q in s.local {
      assert s.local[q].values.Keys + {} == s.local[q].values.Keys;
    }
  }

  function ClearedLocally(s: State, q: Path, gone: set<Name>): State
    requires q in s.local && q in s.global
  {
    var l := s.local[q];
    s.(local := s.local[q := l.(values := l.values - gone, valuesNames := (l.values.Keys - gone) + s.global[q].valuesNames)])
  }

  lemma ClearedLocallyNone(s: State, q: Path)
    requires NodeOk(s, q) && q in s.local
    ensures q in s.global && ClearedLocally(s, q, {}) == s
  {
    var l := s.local[q];
    assert l.values - {} == l.values && l.values.Keys - {} == l.values.Keys;
    assert s.local[q := l] == s.local;
  }

  lemma ClearedLocallyStep(s: State, q: Path, gone: set<Name>, v: Name)
    requires NodeOk(s, q) && q in s.local && q in s.global && v !in gone
    ensures SetLocal(ClearedLocally(s, q, gone), q, v, Invalid) == ClearedLocally(s, q, gone + {v})
  {
    var l := s.local[q];
    var g := s.global[q];
    var t := SetLocal(ClearedLocally(s, q, gone), q, v, Invalid);
    var u := ClearedLocally(s, q, gone + {v});
    assert l.values - gone - {v} == l.values - (gone + {v});
    assert v !in l.values ==> l.values.Keys - gone == l.values.Keys - (gone + {v});
    assert v !in l.values ==> l.values - gone == l.values - (gone + {v});
    assert v in l.values && v !in g.valuesNames ==>
      (l.values.Keys - gone) + g.valuesNames - {v} == (l.values.Keys - (gone + {v})) + g.valuesNames;
    assert v in l.values && v in g.valuesNames ==>
      (l.values.Keys - gone) + g.valuesNames == (l.values.Keys - (gone + {v})) + g.valuesNames;
    assert t.local == u.local;
  }

  lemma ClearedLocallyAll(s: State, q: Path)
    requires NodeOk(s, q) && q in s.local
    ensures q in s.global && ClearedLocally(s, q, s.local[q].valuesNames) == ClearLocal(s, q)
  {
    var l := s.local[q];
    assert l.values - l.valuesNames == map[];
    assert l.values.Keys - l.valuesNames == {} && {} + s.global[q].valuesNames == s.global[q].valuesNames;
  }

  class Groups {
    var global: GlobalTree
    var local: LocalTree
    var nextId: nat

    ghost function View(): State
      reads this
    {
      State(global, local, nextId)
    }

    /** The two main groups, the local one linked to the global one. */
    constructor ()
      ensures Inv(View()) && global.Keys == local.Keys == {[]}
    {
      global := map[[] := GlobalGroup(0, map[], {}, {})];
      local := map[[] := LocalGroup(0, map[], {}, {})];
      nextId := 1;
    }

    // ---- Values ----

    method HearValueChanged(p: Path, key: Name, v: Variant)
      requires p in local
      modifies this`local
      ensures local == old(local)[p := HearValue(old(local)[p], key, v)]
    {
      var l := local[p];
      if v.Valid? {
        local := local[p := l.(valuesNames := l.valuesNames + {key})];
      } else if key !in l.values {
        local := local[p := l.(valuesNames := l.valuesNames - {key})];
      } else {
        assert local[p := l] == local;
      }
    }

    method GlobalSetValue(p: Path, key: Name, v: Variant)
      requires p in global
      modifies this`global, this`local
      ensures View() == SetGlobal(old(View()), p, key, v)
    {
      var g := global[p];
      if OwnValue(g.values, key) != v {
        if v.Invalid? {
          g := g.(values := g.values - {key}, valuesNames := g.valuesNames - {key});
        } else {
          g := g.(values := g.values[key := v.text], valuesNames := g.valuesNames + {key});
        }
        global := global[p := g];
        if p in local && local[p].link == g.id {
          HearValueChanged(p, key, v);
        }
      }
    }

    method LocalSetValue(p: Path, key: Name, v: Variant)
      requires p in local && p in global && local[p].link == global[p].id
      modifies this`local
      ensures View() == SetLocal(old(View()), p, key, v)
    {
      var l := local[p];
      if OwnValue(l.values, key) != v {
        if v.Invalid? {
          l := l.(values := l.values - {key});
          if key !in global[p].valuesNames {
            l := l.(valuesNames := l.valuesNames - {key});
          }
        } else {
          l := l.(valuesNames := l.valuesNames + {key}, values := l.values[key := v.text]);
        }
        local := local[p := l];
      }
    }

    // ---- Adding groups ----

    method HearGroupAdded(p: Path, n: Name)
      requires p in local
      modifies this`local
      ensures local == old(local)[p := old(local)[p].(groupsNames := old(local)[p].groupsNames + {n})]
    {
      local := local[p := local[p].(groupsNames := local[p].groupsNames + {n})];
    }

    method GlobalAddGroup(p: Path, n: Name)
      requires p in global
      modifies this
      ensures View() == AddGlobal(old(View()), p, n)
    {
      var q := p + [n];
      if q !in global {
        var g := global[p].(groupsNames := global[p].groupsNames + {n});
        global := global[p := g][q := GlobalGroup(nextId, map[], {}, {})];
        nextId := nextId + 1;
        if p in local && local[p].link == g.id {
          HearGroupAdded(p, n);
        }
      }
    }

    /** group() of a global group; `add` is the policy that adds a missing one. */
    method GlobalFindGroup(p: Path, n: Name, add: bool) returns (found: bool)
      requires p in global
      modifies this
      ensures View() == if add then AddGlobal(old(View()), p, n) else old(View())
      ensures found <==> add || p + [n] in old(global)
    {
      found := p + [n] in global;
      if !found && add {
        GlobalAddGroup(p, n);
        found := true;
      }
    }

    method LocalAddGroup(p: Path, n: Name)
      requires Inv(View()) && p in local
      modifies this
      ensures View() == AddLocal(old(View()), p, n)
      ensures Inv(View()) && p + [n] in local
    {
      AddLocalKeepsInv(View(), p, n);
      assert NodeOk(View(), p);
      AddGlobalFacts(View(), p, n);
      hide Inv, NodeOk, IdsOk, AddGlobal;
      var q := p + [n];
      if q !in local {
        var found := GlobalFindGroup(p, n, true);
        var g := global[q];
        local := local[q := LocalGroup(g.id, map[], g.valuesNames, g.groupsNames)];
        local := local[p := local[p].(groupsNames := local[p].groupsNames + {n})];
      }
    }

    /** group() of a local group: a global group of that name is taken over; what the policy says is
        added only if there is neither. */
    method FindGroup(p: Path, n: Name, policy: NotFoundPolicy) returns (found: bool)
      requires Inv(View()) && p in local
      modifies this
      ensures Inv(View())
      ensures found <==> policy != DoNothing || p + [n] in old(global)
      ensures View() == if found then AddLocal(old(View()), p, n) else old(View())
      ensures found ==> p + [n] in local
    {
      var q := p + [n];
      assert NodeOk(View(), p) && NodeOk(View(), q);
      found := q in local;
      if !found {
        AddGlobalKeepsInv(View(), p, n);
        found := GlobalFindGroup(p, n, policy == AddGlobalToo);
        if found {
          AddTwice(old(View()), p, n);
          assert NodeOk(View(), p);
          LocalAddGroup(p, n);
        }
      }
      if !found && policy == Add {
        LocalAddGroup(p, n);
        found := true;
      }
    }

    // ---- Reading values ----

    /** value() of a local group: its own value, else the global group's, else the default, which the
        policy may store. */
    method Value(p: Path, key: Name, fallback: Variant, policy: NotFoundPolicy) returns (result: Variant)
      requires Inv(View()) && p in local
      modifies this`global, this`local
      ensures Inv(View())
      ensures var shown := Shown(old(View()), p, key);
              && result == (if shown.Valid? then shown else fallback)
              && View() == (if shown.Valid? || policy == DoNothing then old(View())
                            else if policy == AddGlobalToo then SetGlobal(old(View()), p, key, fallback)
                            else SetLocal(old(View()), p, key, fallback))
    {
      assert NodeOk(View(), p);
      if key in local[p].values {
        return Valid(local[p].values[key]);
      }
      if key in global[p].valuesNames {
        return Valid(global[p].values[key]);
      }
      if policy == AddGlobalToo {
        SetGlobalKeepsInv(View(), p, key, fallback);
        GlobalSetValue(p, key, fallback);
      } else if policy == Add {
        SetLocalKeepsInv(View(), p, key, fallback);
        LocalSetValue(p, key, fallback);
      }
      return fallback;
    }

    /** setValue(), and with an invalid value deleteValue(), in either storage. */
    method SetValue(p: Path, key: Name, v: Variant, storage: Storage)
      requires Inv(View()) && p in local
      modifies this`global, this`local
      ensures Inv(View())
      ensures View() == if storage == GlobalStorage then SetGlobal(old(View()), p, key, v) else SetLocal(old(View()), p, key, v)
    {
      assert NodeOk(View(), p);
      if storage == GlobalStorage {
        SetGlobalKeepsInv(View(), p, key, v);
        GlobalSetValue(p, key, v);
      } else {
        SetLocalKeepsInv(View(), p, key, v);
        LocalSetValue(p, key, v);
      }
    }

    // ---- Deleting groups ----

    method DeleteGlobalValues(q: Path)
      requires q in global && NodeOk(View(), q)
      modifies this`global, this`local
      ensures View() == ClearGlobal(old(View()), q)
    {
      ghost var s := View();
      var toDelete := global[q].valuesNames;
      ghost var gone: set<Name> := {};
      ClearedGloballyNone(s, q);
      while toDelete != {}
        invariant toDelete == s.global[q].valuesNames - gone && gone <= s.global[q].valuesNames
        invariant View() == ClearedGlobally(s, q, gone)
        decreases toDelete
      {
        var v :| v in toDelete;
        ClearedGloballyStep(s, q, gone, v);
        GlobalSetValue(q, v, Invalid);
        toDelete, gone := toDelete - {v}, gone + {v};
      }
      assert gone == s.global[q].valuesNames;
      ClearedGloballyAll(s, q);
    }

    method DeleteGlobalSubgroups(q: Path, ghost depth: nat)
      requires q in global && IdsOk(View()) && BranchOk(View(), q) && Shallow(View(), depth)
      modifies this
      ensures During(old(View()), View(), q, old(global)[q].groupsNames) && IdsOk(View())
      decreases depth - |q|, 1, 2
    {
      ghost var s := View();
      var toDelete := global[q].groupsNames;
      ghost var gone: set<Name> := {};
      DuringNone(s, q);
      while toDelete != {}
        invariant toDelete == s.global[q].groupsNames - gone && gone <= s.global[q].groupsNames
        invariant During(s, View(), q, gone) && IdsOk(View()) && Within(s, View())
        decreases toDelete
      {
        var m :| m in toDelete;
        ghost var t := View();
        DuringReady(s, t, q, gone, m);
        WithinShallow(s, t, depth);
        GlobalDeleteGroup(q, m, depth);
        DuringDeleted(s, t, View(), q, gone, m);
        toDelete, gone := toDelete - {m}, gone + {m};
      }
      assert gone == s.global[q].groupsNames;
    }

    /** deleteGroup() of a global group. Each of its signals is answered by the local group at the same
        path before the deletion goes on. */
    method GlobalDeleteGroup(p: Path, n: Name, ghost depth: nat)
      requires p in global && IdsOk(View()) && BranchOk(View(), p + [n]) && Shallow(View(), depth)
      requires n in global[p].groupsNames <==> p + [n] in global
      requires p in local ==> local[p].link == global[p].id
      modifies this
      ensures if p + [n] in old(global) then Erased(old(View()), View(), p + [n]) else View() == old(View())
      decreases depth - |p|, if p + [n] in global then 1 else 0, 0
    {
      var q := p + [n];
      if q !in global {
        return;
      }
      ghost var s := View();
      UnderSelf(q);
      ShallowAt(s, depth, q);
      hide BranchOk, IdsOk, NodeOk, StaleLeaf, During, ClearGlobal, HearRemoved, Under, Shallow, Within;
      ClearGlobalReady(s, q);
      DeleteGlobalValues(q);
      WithinShallow(s, View(), depth);
      DeleteGlobalSubgroups(q, depth);
      ghost var t := View();
      EraseGlobalDone(s, t, p, n);
      BeforeTakeGlobal(s, t, p, n);
      WithinShallow(s, TakeGlobal(t, p, n), depth);
      global := (global - {q})[p := global[p].(groupsNames := global[p].groupsNames - {n})];
      if p in local && local[p].link == global[p].id {
        HearGroupRemoved(p, n, depth);
      }
    }

    /** The handler for the removal of a group from the global group at `p`. */
    method HearGroupRemoved(p: Path, n: Name, ghost depth: nat)
      requires p in local && p in global && local[p].link == global[p].id && IdsOk(View()) && Shallow(View(), depth)
      requires p + [n] !in global && n !in global[p].groupsNames
      requires p + [n] in local && local[p + [n]].groupsNames == {} && local[p + [n]].valuesNames == {} ==>
                 StaleLeaf(View(), p + [n])
      modifies this
      ensures View() == old(View()).(local := HearRemoved(old(local), p, n))
      decreases depth - |p|, 0, 2
    {
      var q := p + [n];
      if q !in local {
        local := local[p := DropName(local[p], n)];
      } else if local[q].groupsNames == {} && local[q].valuesNames == {} {
        RemoveStale(View(), p, n);
        LocalDeleteGroup(p, n, depth);
        RemovedOnce(old(View()), View(), old(View()).(local := HearRemoved(old(local), p, n)), q);
      }
    }

    method DeleteLocalValues(q: Path)
      requires q in local && (NodeOk(View(), q) || StaleLeaf(View(), q))
      modifies this`local
      ensures View() == ClearLocal(old(View()), q)
    {
      ghost var s := View();
      var toDelete := local[q].valuesNames;
      if toDelete == {} {
        ClearLocalNothing(s, q);
        return;
      }
      ghost var gone: set<Name> := {};
      ClearedLocallyNone(s, q);
      while toDelete != {}
        invariant toDelete == s.local[q].valuesNames - gone && gone <= s.local[q].valuesNames
        invariant View() == ClearedLocally(s, q, gone)
        decreases toDelete
      {
        var v :| v in toDelete;
        ClearedLocallyStep(s, q, gone, v);
        LocalSetValue(q, v, Invalid);
        toDelete, gone := toDelete - {v}, gone + {v};
      }
      assert gone == s.local[q].valuesNames;
      ClearedLocallyAll(s, q);
    }

    method DeleteLocalSubgroups(q: Path, ghost depth: nat)
      requires q in local && IdsOk(View()) && Shallow(View(), depth)
      requires BranchOk(View(), q) || local[q].groupsNames == {}
      modifies this
      ensures Leaving(old(View()), View(), q, old(local)[q].groupsNames) && IdsOk(View()) && Within(old(View()), View())
      decreases depth - |q|, 1, 3
    {
      ghost var s := View();
      var toDelete := local[q].groupsNames;
      ghost var gone: set<Name> := {};
      LeavingNone(s, q);
      while toDelete != {}
        invariant toDelete == s.local[q].groupsNames - gone && gone <= s.local[q].groupsNames
        invariant Leaving(s, View(), q, gone) && IdsOk(View()) && Within(s, View())
        decreases toDelete
      {
        var m :| m in toDelete;
        ghost var t := View();
        LeavingReady(s, t, q, gone, m);
        WithinShallow(s, t, depth);
        LocalDeleteGroup(q, m, depth);
        LeavingDeleted(s, t, View(), q, gone, m);
        toDelete, gone := toDelete - {m}, gone + {m};
      }
      assert gone == s.local[q].groupsNames;
    }

    /** deleteGroup() of a local group, or of the empty leaf that the deletion of its global group left. */
    method LocalDeleteGroup(p: Path, n: Name, ghost depth: nat)
      requires p in local && p in global && local[p].link == global[p].id && IdsOk(View()) && Shallow(View(), depth)
      requires n in global[p].groupsNames <==> p + [n] in global
      requires BranchOk(View(), p + [n]) || StaleLeaf(View(), p + [n])
      modifies this
      ensures Removed(old(View()), View(), p + [n])
      decreases depth - |p|, if p + [n] in global then 1 else 0, 1
    {
      var q := p + [n];
      if q !in local {
        return;
      }
      ghost var s := View();
      UnderSelf(q);
      ShallowAt(s, depth, q);
      hide BranchOk, IdsOk, NodeOk, StaleLeaf, Leaving, ClearLocal, Bare, Erased, Under, Shallow, Within, TakeLocal;
      ClearLocalReady(s, q);
      DeleteLocalValues(q);
      WithinShallow(s, View(), depth);
      DeleteLocalSubgroups(q, depth);
      ghost var t := View();
      WithinShallow(ClearLocal(s, q), t, depth);
      BeforeTakeLocal(s, t, p, n);
      if q in global && global[q].valuesNames == {} && global[q].groupsNames == {} {
        GlobalDeleteGroup(p, n, depth);
        RemoveWithGlobal(s, t, View(), q);
        RemovedGone(s, View(), q);
      }
      if q in local {
        TakeLocalGroup(p, n);
      }
    }

    method TakeLocalGroup(p: Path, n: Name)
      requires p in local && p in global && p + [n] in local
      modifies this`local
      ensures View() == TakeLocal(old(View()), p, n)
    {
      ChildPath(p, n, p, n);
      local := local - {p + [n]};
      if n !in global[p].groupsNames {
        local := local[p := DropName(local[p], n)];
      }
    }

    /** deleteGroup() as clients call it. Deleting from the local storage always keeps the invariant;
        deleting from the global storage keeps it exactly when no content is orphaned. */
    method DeleteGroup(p: Path, n: Name, storage: Storage)
      requires Inv(View()) && p in local
      modifies this
      ensures storage == LocalStorage ==> Removed(old(View()), View(), p + [n]) && Inv(View())
      ensures storage == GlobalStorage ==>
                if p + [n] in old(global) then Erased(old(View()), View(), p + [n]) else View() == old(View())
      ensures Inv(View()) <==> !Orphans(old(View()), DeleteFrom(p, n, storage))
      ensures IdsOk(View())
    {
      ghost var s := View();
      var q := p + [n];
      ghost var depth := DepthOf(s);
      assert NodeOk(s, p);
      if storage == GlobalStorage {
        GlobalDeleteGroup(p, n, depth);
        if q in s.global {
          ErasedInvIffNoContent(s, View(), q);
          ErasedIds(s, View(), q);
        }
      } else {
        LocalDeleteGroup(p, n, depth);
        RemovedKeepsInv(s, View(), q);
      }
    }

    method Perform(c: Call)
      requires Inv(View())
      modifies this
      ensures Performed(old(View()), c, View())
      ensures Inv(View()) <==> !Orphans(old(View()), c)
      ensures IdsOk(View())
    {
      hide Inv, NodeOk, IdsOk, HasContent, SetGlobal, SetLocal, AddLocal, Erased, Removed;
      if c.p in local {
        match c
        case Set(p, key, v, storage) => SetValue(p, key, v, storage);
        case Get(p, key, d, policy) => var _ := Value(p, key, d, policy);
        case AddTo(p, n) => LocalAddGroup(p, n);
        case FindIn(p, n, policy) => var _ := FindGroup(p, n, policy);
        case DeleteFrom(p, n, storage) => DeleteGroup(p, n, storage);
      }
      InvIds(View());
    }

    /** Any run of calls keeps the overlay invariant up to the first call, if there is one, that
        deletes a global group whose local counterpart has content. */
    method PerformAll(calls: seq<Call>) returns (performed: nat, ghost states: seq<State>)
      requires Inv(View())
      modifies this
      ensures performed <= |calls| && History(old(View()), calls[..performed], states, View())
      ensures NoneOrphaned(calls[..performed], states)
      ensures performed < |calls| ==> Orphans(View(), calls[performed])
    {
      hide Inv, Orphans, Performed;
      performed, states := 0, [View()];
      while performed < |calls| && !Orphans(State(global, local, nextId), calls[performed])
        invariant performed <= |calls| && History(old(View()), calls[..performed], states, View())
        invariant Inv(View()) && NoneOrphaned(calls[..performed], states)
      {
        ghost var s := View();
        Perform(calls[performed]);
        OneCallMore(old(View()), calls, performed, states, s, View());
        NoneOrphanedYet(old(View()), calls, performed, states, s, View());
        performed, states := performed + 1, states + [View()];
      }
    }

    /** The same with the first orphaning call performed as well: also then no local group hears a
        global group that is not at its own path. */
    method PerformUntilOrphaned(calls: seq<Call>) returns (performed: nat, ghost states: seq<State>)
      requires Inv(View())
      modifies this
      ensures performed <= |calls| && History(old(View()), calls[..performed], states, View())
      ensures forall i :: 0 <= i < |states| ==> OnlyMirrorsHear(states[i])
      ensures if Inv(View()) then performed == |calls| && NoneOrphaned(calls, states)
              else
                && performed > 0 && NoneOrphaned(calls[..performed - 1], states[..performed])
                && Orphans(states[performed - 1], calls[performed - 1])
    {
      hide Inv, Orphans, Performed, OnlyMirrorsHear;
      performed, states := PerformAll(calls);
      MirrorsHear(states);
      assert calls[..|calls|] == calls;
      if performed < |calls| {
        ghost var s, before := View(), states;
        Perform(calls[performed]);
        OneCallMore(old(View()), calls, performed, states, s, View());
        OnlyMirrorHears(View());
        performed, states := performed + 1, states + [View()];
        assert states[..performed] == before;
      }
    }
  }

  /** A bound on the lengths of all paths. */
  lemma DepthOf(s: State) returns (depth: nat)
    ensures Shallow(s, depth)
  {
    depth := LongestIn(s.global.Keys + s.local.Keys);
  }

  lemma {:induction false} LongestIn(paths: set<Path>) returns (depth: nat)
    ensures forall r :: r in paths ==> |r| <= depth
  {
    if paths == {} {
      return 0;
    }
    var p :| p in paths;
    var rest := LongestIn(paths - {p});
    depth := if |p| > rest then |p| else rest;
    assert forall r :: r in paths ==> r == p || r in paths - {p};
  }

  lemma ContentStored(s: State, n: Name, key: Name, v: string)
    requires Inv(s) && [] in s.local
    ensures var t := AddLocal(s, [], n);
            && [n] in t.local
            && var u := SetLocal(t, [n], key, Valid(v));
               [] in u.local && [n] in u.local && [n] in u.global && HasContent(u, [n])
  {
    var t := AddLocal(s, [], n);
    assert [] + [n] == [n];
    AddLocalKeepsInv(s, [], n);
    assert NodeOk(s, []) && NodeOk(t, [n]) && [n] in t.local;
    var u := SetLocal(t, [n], key, Valid(v));
    UnderSelf([n]);
    assert key in u.local[[n]].values;
  }

  /** The excluded case can arise: a value set in a local group, and its global group deleted. */
  method OrphanedContent() returns (g: Groups)
    ensures fresh(g) && !Inv(g.View())
  {
    g := new Groups();
    hide Inv, NodeOk, IdsOk, HasContent, AddLocal, SetLocal, Erased, Removed;
    assert [] + ["a"] == ["a"];
    ContentStored(g.View(), "a", "key", "value");
    g.LocalAddGroup([], "a");
    g.SetValue(["a"], "key", Valid("value"), LocalStorage);
    g.DeleteGroup([], "a", GlobalStorage);
  }

  /** One call on the local group at `p`, if there is one. */
  datatype Call =
    | Set(p: Path, key: Name, v: Variant, storage: Storage)
    | Get(p: Path, key: Name, fallback: Variant, policy: NotFoundPolicy)
    | AddTo(p: Path, n: Name)
    | FindIn(p: Path, n: Name, policy: NotFoundPolicy)
    | DeleteFrom(p: Path, n: Name, storage: Storage)

  /** A global group is about to be deleted whose local counterpart still has content. */
  predicate Orphans(s: State, c: Call) {
    c.DeleteFrom? && c.storage == GlobalStorage && c.p in s.local && c.p + [c.n] in s.global && HasContent(s, c.p + [c.n])
  }

  /** What the call makes of the groups. */
  ghost predicate Performed(s: State, c: Call, t: State) {
    if c.p !in s.local then t == s
    else
      match c
      case Set(p, key, v, storage) =>
        t == if storage == GlobalStorage then SetGlobal(s, p, key, v) else SetLocal(s, p, key, v)
      case Get(p, key, fallback, policy) =>
        t == if Shown(s, p, key).Valid? || policy == DoNothing then s
             else if policy == AddGlobalToo then SetGlobal(s, p, key, fallback)
             else SetLocal(s, p, key, fallback)
      case AddTo(p, n) => t == AddLocal(s, p, n)
      case FindIn(p, n, policy) =>
        t == if policy != DoNothing || p + [n] in s.global then AddLocal(s, p, n) else s
      case DeleteFrom(p, n, storage) =>
        if storage == LocalStorage then Removed(s, t, p + [n])
        else if p + [n] in s.global then Erased(s, t, p + [n])
        else t == s
  }

  /** The states between the calls, from `s` to `t`. */
  ghost predicate History(s: State, calls: seq<Call>, states: seq<State>, t: State) {
    && |states| == |calls| + 1 && states[0] == s && states[|calls|] == t
    && forall i :: 0 <= i < |calls| ==> Performed(states[i], calls[i], states[i + 1])
  }

  lemma OneCallMore(s: State, calls: seq<Call>, performed: nat, states: seq<State>, t: State, u: State)
    requires performed < |calls| && History(s, calls[..performed], states, t) && Performed(t, calls[performed], u)
    ensures History(s, calls[..performed + 1], states + [u], u)
  {
    hide Performed;
    var done, all := calls[..performed + 1], states + [u];
    forall i | 0 <= i < |done| ensures Performed(all[i], done[i], all[i + 1]) {
      if i < performed {
        assert done[i] == calls[..performed][i];
      }
    }
  }

  /** The invariant has held in all states, and no call has orphaned content. */
  ghost predicate NoneOrphaned(calls: seq<Call>, states: seq<State>) {
    && |states| == |calls| + 1
    && (forall i :: 0 <= i < |states| ==> Inv(states[i]))
    && (forall i :: 0 <= i < |calls| ==> !Orphans(states[i], calls[i]))
  }

  lemma NoneOrphanedYet(s: State, calls: seq<Call>, performed: nat, states: seq<State>, t: State, u: State)
    requires performed < |calls| && History(s, calls[..performed], states, t)
    requires NoneOrphaned(calls[..performed], states) && !Orphans(t, calls[performed]) && Inv(u)
    ensures NoneOrphaned(calls[..performed + 1], states + [u])
  {
    hide Performed, Inv, Orphans;
    var done, all := calls[..performed + 1], states + [u];
    forall i | 0 <= i < |done| ensures !Orphans(all[i], done[i]) {
      if i < performed {
        assert done[i] == calls[..performed][i];
      }
    }
  }

  lemma InvIds(s: State)
    ensures Inv(s) ==> IdsOk(s)
  {
  }

  lemma MirrorsHear(states: seq<State>)
    ensures forall i :: 0 <= i < |states| && Inv(states[i]) ==> OnlyMirrorsHear(states[i])
  {
    hide NodeOk, OnlyMirrorsHear;
    forall i | 0 <= i < |states| && Inv(states[i]) ensures OnlyMirrorsHear(states[i]) {
      OnlyMirrorHears(states[i]);
    }
  }

  lemma AddGlobalFacts(s: State, p: Path, n: Name)
    requires p in s.global && p in s.local
    ensures p in AddGlobal(s, p, n).local && p + [n] in AddGlobal(s, p, n).global && p + [n] != p
  {
    ChildPath(p, n, p, n);
  }

  lemma AddTwice(s: State, p: Path, n: Name)
    requires p in s.local && p in s.global && p + [n] !in s.local && s.local[p].link == s.global[p].id
    ensures AddLocal(AddGlobal(s, p, n), p, n) == AddLocal(s, p, n)
  {
    ChildPath(p, n, p, n);
    var g := AddGlobal(s, p, n);
    assert p in g.global && p + [n] in g.global && AddGlobal(g, p, n) == g;
  }

  // ---- Between the steps of a deletion ----

  lemma DuringDeleted(s: State, t: State, u: State, q: Path, gone: set<Name>, m: Name)
    requires During(s, t, q, gone) && IdsOk(t) && Within(s, t) && m !in gone
    requires BranchOk(s, q) && q in s.global && m in s.global[q].groupsNames
    requires if q + [m] in t.global then Erased(t, u, q + [m]) else u == t
    ensures During(s, u, q, gone + {m}) && IdsOk(u) && Within(s, u)
  {
    UnderSelf(q);
    assert NodeOk(s, q);
    UnderSelf(q + [m]);
    DuringUntouched(s, t, q, gone, m, q + [m]);
    DuringStep(s, t, u, q, gone, m);
    ErasedIds(t, u, q + [m]);
    ErasedWithin(t, u, q + [m]);
  }

  lemma LeavingDeleted(s: State, t: State, u: State, q: Path, gone: set<Name>, m: Name)
    requires Leaving(s, t, q, gone) && IdsOk(t) && Within(s, t) && m !in gone
    requires BranchOk(s, q) && Removed(t, u, q + [m])
    ensures Leaving(s, u, q, gone + {m}) && IdsOk(u) && Within(s, u)
  {
    LeavingStep(s, t, u, q, gone, m);
    RemovedKeepsIds(t, u, q + [m]);
    RemovedWithin(t, u, q + [m]);
  }

  lemma ClearGlobalReady(s: State, q: Path)
    requires BranchOk(s, q) && q in s.global && IdsOk(s)
    ensures NodeOk(s, q)
    ensures var c := ClearGlobal(s, q);
            BranchOk(c, q) && q in c.global && IdsOk(c) && Within(s, c)
            && c.global[q].groupsNames == s.global[q].groupsNames
  {
    UnderSelf(q);
    assert NodeOk(s, q);
    var c := ClearGlobal(s, q);
    forall r | Under(q, r) ensures NodeOk(c, r) {
      assert NodeOk(s, r);
      if r != q {
        OtherNodesOk(s, c, q, r);
      } else if q in s.local {
        assert s.local[q].values.Keys + {} == s.local[q].values.Keys;
      }
    }
    SameIdsOk(s, c);
  }

  lemma TakeGlobalIds(t: State, p: Path, n: Name)
    requires IdsOk(t) && p in t.global
    ensures IdsOk(TakeGlobal(t, p, n))
  {
    ChildPath(p, n, p, n);
    SubIdsOk(t, TakeGlobal(t, p, n));
  }

  lemma DuringClearWithin(s: State, t: State, q: Path, names: set<Name>)
    requires During(ClearGlobal(s, q), t, q, names)
    ensures Within(s, t)
  {
    forall r ensures r in t.global ==> r in s.global
             ensures r in t.local ==> r in s.local {
      assert Find(t.global, r) == GlobalDuring(ClearGlobal(s, q), q, names, r);
      assert Find(t.local, r) == LocalDuring(ClearGlobal(s, q), q, names, r);
    }
  }

  /** The group above a branch being deleted, and the handler's view of it. */
  lemma BeforeTakeGlobal(s: State, t: State, p: Path, n: Name)
    requires BranchOk(s, p + [n]) && IdsOk(t) && p in s.global && p + [n] in s.global
    requires During(ClearGlobal(s, p + [n]), t, p + [n], s.global[p + [n]].groupsNames)
    ensures p in t.global && t.global[p] == s.global[p] && (p in t.local ==> p in s.local && t.local[p] == s.local[p])
    ensures IdsOk(TakeGlobal(t, p, n)) && p + [n] !in TakeGlobal(t, p, n).global
    ensures p + [n] in t.local && t.local[p + [n]].groupsNames == {} && t.local[p + [n]].valuesNames == {} ==>
              StaleLeaf(TakeGlobal(t, p, n), p + [n])
    ensures Within(s, t) && Within(s, TakeGlobal(t, p, n))
  {
    var q := p + [n];
    var names := s.global[q].groupsNames;
    ChildPath(p, n, p, n);
    assert !Under(q, p);
    assert Find(t.global, p) == GlobalDuring(ClearGlobal(s, q), q, names, p);
    assert Find(t.local, p) == LocalDuring(ClearGlobal(s, q), q, names, p);
    TakeGlobalIds(t, p, n);
    DuringClearWithin(s, t, q, names);
    hide BranchOk, StaleLeaf, During, IdsOk;
    if q in t.local && t.local[q].groupsNames == {} && t.local[q].valuesNames == {} {
      EmptyLeftIsStale(s, t, p, n);
    }
  }

  lemma ClearLocalNothing(s: State, q: Path)
    requires q in s.local && s.local[q].valuesNames == {} && (NodeOk(s, q) || StaleLeaf(s, q))
    ensures ClearLocal(s, q) == s
  {
    var l := s.local[q];
    assert l.values.Keys <= l.valuesNames;
    assert l.values == map[];
    assert q in s.global ==> s.global[q].valuesNames <= l.valuesNames;
    var names := if q in s.global then s.global[q].valuesNames else {};
    assert names == {} && l.(values := map[], valuesNames := names) == l;
    assert s.local[q := l] == s.local;
  }

  lemma ClearLocalReady(s: State, q: Path)
    requires q in s.local && IdsOk(s) && (BranchOk(s, q) || StaleLeaf(s, q))
    ensures NodeOk(s, q) || StaleLeaf(s, q)
    ensures var c := ClearLocal(s, q);
            && (BranchOk(c, q) || c.local[q].groupsNames == {}) && q in c.local && IdsOk(c) && Within(s, c)
            && c.local[q].groupsNames == s.local[q].groupsNames
  {
    UnderSelf(q);
    SameIdsOk(s, ClearLocal(s, q));
    if BranchOk(s, q) {
      ClearLocalBranch(s, q);
    }
  }

  lemma RemovedGone(s: State, t: State, q: Path)
    requires q != [] && Removed(s, t, q)
    ensures q !in t.local
  {
    UnderSelf(q);
    if q in s.local {
      assert Find(t.local, q) == LocalRemoved(s, q, q);
    }
  }

  /** The local half of taking the group out. */
  function TakeLocal(t: State, p: Path, n: Name): State {
    if p !in t.local || p !in t.global then t
    else
      var rest := t.local - {p + [n]};
      t.(local := if n in t.global[p].groupsNames then rest else rest[p := DropName(t.local[p], n)])
  }

  predicate EmptyGlobal(t: State, q: Path) {
    q in t.global && t.global[q].valuesNames == {} && t.global[q].groupsNames == {}
  }

  lemma BeforeTakeLocal(s: State, t: State, p: Path, n: Name)
    requires p in s.local && p in s.global && p + [n] in s.local && s.local[p].link == s.global[p].id
    requires n in s.global[p].groupsNames <==> p + [n] in s.global
    requires BranchOk(s, p + [n]) || StaleLeaf(s, p + [n])
    requires AllLeft(s, t, p + [n])
    ensures p in t.global && p in t.local && t.global[p] == s.global[p] && t.local[p] == s.local[p] && p + [n] in t.local
    ensures EmptyGlobal(t, p + [n]) ==>
              BranchOk(s, p + [n]) && BranchOk(t, p + [n]) && Bare(s, p + [n]) && p + [n] in s.global
    ensures !EmptyGlobal(t, p + [n]) ==> Removed(s, TakeLocal(t, p, n), p + [n])
  {
    var q := p + [n];
    ChildPath(p, n, p, n);
    assert p != q && !Under(q, p);
    if BranchOk(s, q) {
      AllLeftElsewhere(s, t, q, p);
      AllLeftTop(s, t, q);
      if Bare(s, q) {
        AllLeftBranch(s, t, p, n);
      } else {
        RemoveBesideGlobal(s, t, q);
      }
    } else {
      StaleAllLeft(s, t, q);
      RemoveStale(s, p, n);
    }
  }

  lemma StaleAllLeft(s: State, t: State, q: Path)
    requires StaleLeaf(s, q) && AllLeft(s, t, q)
    ensures t == s
  {
    ClearLocalNothing(s, q);
    LeavingNone(s, q);
    forall r ensures Find(t.global, r) == Find(s.global, r) && Find(t.local, r) == Find(s.local, r) {
      assert Find(t.global, r) == GlobalLeaving(s, q, {}, r) && Find(t.local, r) == LocalLeaving(s, q, {}, r);
      assert Find(s.global, r) == GlobalLeaving(s, q, {}, r) && Find(s.local, r) == LocalLeaving(s, q, {}, r);
    }
    SameFinds(t.global, s.global);
    SameFinds(t.local, s.local);
  }
}
