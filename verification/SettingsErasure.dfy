/** What deleting a group does to both trees, path by path, once all signals have been answered. */
module SettingsErasure {
  import opened Text
  import opened SettingsTree

  /** A local group at or below `q` holds a value of its own. */
  predicate HasContent(s: State, q: Path) {
    exists r :: r in s.local && Under(q, r) && s.local[r].values != map[]
  }

  /** Every group at or below `q` is as it should be. */
  ghost predicate BranchOk(s: State, q: Path) { forall r :: Under(q, r) ==> NodeOk(s, r) }

  // ---- Deleting a global group ----

  /** The global branch goes; the local groups below it stay exactly where they, or groups below them,
      hold values, and then show nothing but their own. */
  ghost function GlobalErased(s: State, q: Path, r: Path): Option<GlobalGroup>
    requires q != []
  {
    if Under(q, r) then None
    else if r == Parent(q) && r in s.global then
      Some(s.global[r].(groupsNames := s.global[r].groupsNames - {Last(q)}))
    else Find(s.global, r)
  }

  ghost function OwnOnly(s: State, r: Path): LocalGroup
    requires r in s.local
  {
    var l := s.local[r];
    l.(valuesNames := l.values.Keys, groupsNames := set m | m in l.groupsNames && HasContent(s, r + [m]))
  }

  ghost function LocalErased(s: State, q: Path, r: Path): Option<LocalGroup>
    requires q != []
  {
    if Under(q, r) then if r in s.local && HasContent(s, r) then Some(OwnOnly(s, r)) else None
    else if r == Parent(q) && r in s.local && !HasContent(s, q) then
      Some(s.local[r].(groupsNames := s.local[r].groupsNames - {Last(q)}))
    else Find(s.local, r)
  }

  ghost predicate Erased(s: State, t: State, q: Path)
    requires q != []
  {
    t.nextId == s.nextId && forall r :: Find(t.global, r) == GlobalErased(s, q, r) && Find(t.local, r) == LocalErased(s, q, r)
  }

  /** The same while only the children named in `done` have been deleted. */
  ghost function GlobalDuring(s: State, q: Path, done: set<Name>, r: Path): Option<GlobalGroup> {
    if r == q && q in s.global then Some(s.global[q].(groupsNames := s.global[q].groupsNames - done))
    else if Under(q, r) && r != q && r[|q|] in done then None
    else Find(s.global, r)
  }

  ghost function LocalDuring(s: State, q: Path, done: set<Name>, r: Path): Option<LocalGroup> {
    if r == q && q in s.local then
      Some(s.local[q].(groupsNames := set m | m in s.local[q].groupsNames && (m !in done || HasContent(s, q + [m]))))
    else if Under(q, r) && r != q && r[|q|] in done then
      if r in s.local && HasContent(s, r) then Some(OwnOnly(s, r)) else None
    else Find(s.local, r)
  }

  ghost predicate During(s: State, t: State, q: Path, done: set<Name>) {
    t.nextId == s.nextId &&
    forall r :: Find(t.global, r) == GlobalDuring(s, q, done, r) && Find(t.local, r) == LocalDuring(s, q, done, r)
  }

  /** Content depends only on the local groups below. */
  lemma SameContent(s: State, t: State, q: Path)
    requires forall r :: Under(q, r) ==> Find(t.local, r) == Find(s.local, r)
    ensures HasContent(t, q) <==> HasContent(s, q)
  {
    if r :| r in s.local && Under(q, r) && s.local[r].values != map[] {
      assert Find(t.local, r) == Find(s.local, r);
    }
    if r :| r in t.local && Under(q, r) && t.local[r].values != map[] {
      assert Find(t.local, r) == Find(s.local, r);
    }
  }

  lemma DuringNone(s: State, q: Path)
    ensures During(s, s, q, {})
  {
    forall r ensures Find(s.global, r) == GlobalDuring(s, q, {}, r) && Find(s.local, r) == LocalDuring(s, q, {}, r) {
      if r == q && q in s.local {
        assert s.local[q].groupsNames == LocalDuring(s, q, {}, q).value.groupsNames;
      }
      if r == q && q in s.global {
        assert s.global[q].groupsNames - {} == s.global[q].groupsNames;
      }
    }
  }

  /** The branch of a child not yet deleted is untouched. */
  lemma DuringUntouched(s: State, t: State, q: Path, done: set<Name>, m: Name, r: Path)
    requires During(s, t, q, done) && m !in done && Under(q + [m], r)
    ensures Find(t.global, r) == Find(s.global, r) && Find(t.local, r) == Find(s.local, r)
  {
    UnderChild(q, m, r);
  }

  lemma DuringContent(s: State, t: State, q: Path, done: set<Name>, m: Name, r: Path)
    requires During(s, t, q, done) && m !in done && Under(q + [m], r)
    ensures HasContent(t, r) <==> HasContent(s, r)
  {
    forall x | Under(r, x) ensures Find(t.local, x) == Find(s.local, x) {
      UnderTrans(q + [m], r, x);
      DuringUntouched(s, t, q, done, m, x);
    }
    SameContent(s, t, r);
  }

  lemma DuringOwnOnly(s: State, t: State, q: Path, done: set<Name>, m: Name, r: Path)
    requires During(s, t, q, done) && m !in done && Under(q + [m], r) && r in s.local
    ensures r in t.local && OwnOnly(t, r) == OwnOnly(s, r)
  {
    DuringUntouched(s, t, q, done, m, r);
    forall k ensures HasContent(t, r + [k]) <==> HasContent(s, r + [k]) {
      assert (r + [k])[..|q| + 1] == r[..|q| + 1];
      DuringContent(s, t, q, done, m, r + [k]);
    }
  }

  /** Deleting one more child. */
  lemma DuringStep(s: State, t: State, u: State, q: Path, done: set<Name>, m: Name)
    requires During(s, t, q, done) && m !in done && Erased(t, u, q + [m])
    ensures During(s, u, q, done + {m})
  {
    ChildPath(q, m, q, m);
    UnderSelf(q + [m]);
    DuringContent(s, t, q, done, m, q + [m]);
    forall r ensures Find(u.global, r) == GlobalDuring(s, q, done + {m}, r) {
      UnderChild(q, m, r);
      assert Find(u.global, r) == GlobalErased(t, q + [m], r);
      assert Find(t.global, r) == GlobalDuring(s, q, done, r);
      if r == q && q in s.global {
        assert s.global[q].groupsNames - done - {m} == s.global[q].groupsNames - (done + {m});
      }
    }
    forall r ensures Find(u.local, r) == LocalDuring(s, q, done + {m}, r) {
      LocalDuringStep(s, t, u, q, done, m, r);
    }
  }

  lemma LocalDuringStep(s: State, t: State, u: State, q: Path, done: set<Name>, m: Name, r: Path)
    requires During(s, t, q, done) && m !in done && Erased(t, u, q + [m])
    requires HasContent(t, q + [m]) <==> HasContent(s, q + [m])
    ensures Find(u.local, r) == LocalDuring(s, q, done + {m}, r)
  {
    ChildPath(q, m, q, m);
    UnderChild(q, m, r);
    assert Find(u.local, r) == LocalErased(t, q + [m], r);
    assert Find(t.local, r) == LocalDuring(s, q, done, r);
    if Under(q + [m], r) {
      DuringUntouched(s, t, q, done, m, r);
      DuringContent(s, t, q, done, m, r);
      if r in s.local {
        DuringOwnOnly(s, t, q, done, m, r);
      }
    } else if r == q && q in s.local {
      var names := LocalDuring(s, q, done, q).value.groupsNames;
      assert LocalDuring(s, q, done + {m}, q).value.groupsNames ==
             if HasContent(s, q + [m]) then names else names - {m};
    }
  }

  /** A sound branch is reached step by step from its top. */
  lemma {:induction false} BranchStep(s: State, q: Path, r: Path)
    requires BranchOk(s, q) && Under(q, r) && r != q
    ensures r in s.global ==> q in s.global && q + [r[|q|]] in s.global && r[|q|] in s.global[q].groupsNames
    ensures r in s.local ==> q in s.local && q + [r[|q|]] in s.local && r in s.global
    decreases |r|
  {
    UnderParent(q, r);
    UnderSelf(q);
    assert NodeOk(s, r) && NodeOk(s, q);
    var up := Parent(r);
    if up == q {
      assert r == q + [r[|q|]];
    } else {
      BranchStep(s, q, up);
      assert up[|q|] == r[|q|];
    }
  }

  lemma ContentHere(s: State, q: Path)
    requires BranchOk(s, q) && q in s.local
    ensures HasContent(s, q) <==>
            s.local[q].values != map[] || exists m :: m in s.local[q].groupsNames && HasContent(s, q + [m])
  {
    UnderSelf(q);
    assert NodeOk(s, q);
    if HasContent(s, q) && s.local[q].values == map[] {
      var r :| r in s.local && Under(q, r) && s.local[r].values != map[];
      BranchStep(s, q, r);
      UnderChild(q, r[|q|], r);
      assert HasContent(s, q + [r[|q|]]);
    }
    if m :| m in s.local[q].groupsNames && HasContent(s, q + [m]) {
      var r :| r in s.local && Under(q + [m], r) && s.local[r].values != map[];
      UnderChild(q, m, r);
    }
  }

  // ---- The last step of deleting a global group ----

  /** All values of the global group at `q` deleted, one signal each. */
  function ClearGlobal(s: State, q: Path): State {
    if q !in s.global then s
    else
      var local := if q in s.local then s.local[q := s.local[q].(valuesNames := s.local[q].values.Keys)] else s.local;
      s.(global := s.global[q := s.global[q].(values := map[], valuesNames := {})], local := local)
  }

  function DropName(l: LocalGroup, n: Name): LocalGroup { l.(groupsNames := l.groupsNames - {n}) }

  /** The local tree after the groupRemoved signal has been answered. */
  function HearRemoved(local: LocalTree, p: Path, n: Name): LocalTree {
    var q := p + [n];
    if p !in local then local
    else if q !in local then local[p := DropName(local[p], n)]
    else if local[q].groupsNames == {} && local[q].valuesNames == {} then (local - {q})[p := DropName(local[p], n)]
    else local
  }

  function TakeGlobal(s: State, p: Path, n: Name): State {
    if p !in s.global then s
    else s.(global := (s.global - {p + [n]})[p := s.global[p].(groupsNames := s.global[p].groupsNames - {n})])
  }

  lemma SameValuesSameContent(s: State, t: State, q: Path)
    requires t.local.Keys == s.local.Keys && forall r :: r in s.local ==> t.local[r].values == s.local[r].values
    ensures HasContent(t, q) <==> HasContent(s, q)
  {
  }

  lemma ClearKeepsContent(s: State, q: Path, r: Path)
    ensures HasContent(ClearGlobal(s, q), r) <==> HasContent(s, r)
  {
    SameValuesSameContent(s, ClearGlobal(s, q), r);
  }

  lemma ClearKeepsOwnOnly(s: State, q: Path, r: Path)
    requires r in s.local
    ensures OwnOnly(ClearGlobal(s, q), r) == OwnOnly(s, r)
  {
    forall m ensures HasContent(ClearGlobal(s, q), r + [m]) <==> HasContent(s, r + [m]) {
      ClearKeepsContent(s, q, r + [m]);
    }
  }

  /** In a sound branch a local group has no children its global group lacks. */
  lemma LocalNamesAreGlobal(s: State, q: Path)
    requires BranchOk(s, q) && q in s.local
    ensures q in s.global && s.local[q].groupsNames == s.global[q].groupsNames
    ensures s.local[q].valuesNames == s.local[q].values.Keys + s.global[q].valuesNames
  {
    UnderSelf(q);
    assert NodeOk(s, q);
    forall m ensures m in s.local[q].groupsNames <==> m in s.global[q].groupsNames {
      if q + [m] in s.local {
        UnderChild(q, m, q + [m]);
        UnderSelf(q + [m]);
        BranchStep(s, q, q + [m]);
      }
    }
  }

  /** When all children are gone, what is left of the local group at `q` is what it owns. */
  lemma AllChildrenGone(s: State, t: State, q: Path)
    requires BranchOk(s, q) && q in s.local
    requires q in s.global && During(ClearGlobal(s, q), t, q, s.global[q].groupsNames)
    ensures q in t.local && t.local[q] == OwnOnly(s, q)
    ensures HasContent(s, q) <==> t.local[q].groupsNames != {} || t.local[q].valuesNames != {}
  {
    var c := ClearGlobal(s, q);
    LocalNamesAreGlobal(s, q);
    ClearKeepsOwnOnly(s, q, q);
    ContentHere(s, q);
    assert Find(t.local, q) == LocalDuring(c, q, s.global[q].groupsNames, q);
    hide BranchOk, HasContent, During;
    var l := c.local[q];
    assert t.local[q].groupsNames == set m | m in l.groupsNames && HasContent(c, q + [m]);
    assert t.local[q] == OwnOnly(c, q);
    assert s.local[q].values != map[] <==> s.local[q].values.Keys != {};
    var names := t.local[q].groupsNames;
    if m :| m in s.local[q].groupsNames && HasContent(s, q + [m]) {
      assert m in names;
    }
    if names != {} {
      var m :| m in names;
      assert m in s.local[q].groupsNames && HasContent(s, q + [m]);
    }
  }

  /** Deleting the group itself completes the deletion of its branch. */
  lemma EraseGlobalDone(s: State, t: State, p: Path, n: Name)
    requires BranchOk(s, p + [n]) && p in s.global && p + [n] in s.global
    requires During(ClearGlobal(s, p + [n]), t, p + [n], s.global[p + [n]].groupsNames)
    ensures p in t.global
    ensures Erased(s, TakeGlobal(t, p, n).(local := HearRemoved(t.local, p, n)), p + [n])
  {
    var q := p + [n];
    var v := TakeGlobal(t, p, n).(local := HearRemoved(t.local, p, n));
    ChildPath(p, n, p, n);
    assert p != q && !Under(q, p);
    assert Find(t.global, p) == GlobalDuring(ClearGlobal(s, q), q, s.global[q].groupsNames, p);
    forall r ensures Find(v.global, r) == GlobalErased(s, q, r) {
      assert Find(t.global, r) == GlobalDuring(ClearGlobal(s, q), q, s.global[q].groupsNames, r);
      if Under(q, r) && r != q {
        BranchStep(s, q, r);
      }
    }
    forall r ensures Find(v.local, r) == LocalErased(s, q, r) {
      EraseLocalDone(s, t, p, n, r);
    }
  }

  lemma EraseLocalDone(s: State, t: State, p: Path, n: Name, r: Path)
    requires BranchOk(s, p + [n]) && p in s.global && p + [n] in s.global
    requires During(ClearGlobal(s, p + [n]), t, p + [n], s.global[p + [n]].groupsNames)
    ensures Find(HearRemoved(t.local, p, n), r) == LocalErased(s, p + [n], r)
  {
    var q := p + [n];
    var c := ClearGlobal(s, q);
    ChildPath(p, n, p, n);
    UnderSelf(q);
    assert NodeOk(s, q);
    assert p != q && !Under(q, p);
    assert Find(t.local, r) == LocalDuring(c, q, s.global[q].groupsNames, r);
    assert Find(t.local, p) == LocalDuring(c, q, s.global[q].groupsNames, p);
    assert Find(t.local, q) == LocalDuring(c, q, s.global[q].groupsNames, q);
    ClearKeepsContent(s, q, r);
    if q in s.local {
      AllChildrenGone(s, t, q);
    } else {
      NoContentOutside(s, q);
    }
    if Under(q, r) && r != q {
      BranchStep(s, q, r);
      if r in s.local {
        ClearKeepsOwnOnly(s, q, r);
      }
    }
  }

  lemma NoContentOutside(s: State, q: Path)
    requires BranchOk(s, q) && q !in s.local
    ensures !HasContent(s, q)
  {
    if HasContent(s, q) {
      var r :| r in s.local && Under(q, r) && s.local[r].values != map[];
      BranchStep(s, q, r);
    }
  }

  // ---- The invariant after deleting a global group ----

  lemma ErasedIds(s: State, t: State, q: Path)
    requires IdsOk(s) && q != [] && Erased(s, t, q)
    ensures IdsOk(t)
  {
    forall r | r in t.global ensures r in s.global && t.global[r].id == s.global[r].id {
      assert Find(t.global, r) == GlobalErased(s, q, r);
    }
    forall r | r in t.local ensures r in s.local && t.local[r].link == s.local[r].link {
      assert Find(t.local, r) == LocalErased(s, q, r);
    }
  }

  /** Around a group outside the branch only the branch itself is missing. */
  lemma ErasedAround(s: State, t: State, q: Path, r: Path)
    requires q != [] && Erased(s, t, q) && !HasContent(s, q) && !Under(q, r)
    ensures Find(t.global, r) == GlobalErased(s, q, r) && Find(t.local, r) == LocalErased(s, q, r)
    ensures forall n :: r + [n] in t.global <==> r + [n] in s.global && r + [n] != q
    ensures forall n :: r + [n] in t.local <==> r + [n] in s.local && r + [n] != q
    ensures forall n :: r + [n] == q <==> r == Parent(q) && n == Last(q)
    ensures r != [] ==> (Parent(r) in s.global ==> Parent(r) in t.global) && (Parent(r) in s.local ==> Parent(r) in t.local)
  {
    UnderSelf(q);
    NoContentBelow(s, q);
    forall n ensures r + [n] in t.global <==> r + [n] in s.global && r + [n] != q
             ensures r + [n] in t.local <==> r + [n] in s.local && r + [n] != q {
      StepInto(q, r, n);
      assert Find(t.global, r + [n]) == GlobalErased(s, q, r + [n]);
      assert Find(t.local, r + [n]) == LocalErased(s, q, r + [n]);
    }
    forall n ensures r + [n] == q <==> r == Parent(q) && n == Last(q) {
      ChildPath(Parent(q), Last(q), r, n);
      assert Parent(q) + [Last(q)] == q;
    }
    if r != [] {
      var up := Parent(r);
      assert Find(t.global, up) == GlobalErased(s, q, up) && Find(t.local, up) == LocalErased(s, q, up);
      if Under(q, up) {
        UnderTrans(q, up, r);
      }
    }
  }

  lemma ErasedGlobalOutside(s: State, t: State, q: Path, r: Path)
    requires GlobalOk(s, r) && q != [] && Erased(s, t, q) && !HasContent(s, q) && !Under(q, r)
    ensures GlobalOk(t, r)
  {
    assert t.nextId == s.nextId;
    hide Erased, HasContent;
    ErasedAround(s, t, q, r);
  }

  lemma ErasedLocalOutside(s: State, t: State, q: Path, r: Path)
    requires LocalOk(s, r) && q != [] && Erased(s, t, q) && !HasContent(s, q) && !Under(q, r)
    ensures LocalOk(t, r)
  {
    hide Erased, HasContent;
    ErasedAround(s, t, q, r);
  }

  lemma ErasedNode(s: State, t: State, q: Path, r: Path)
    requires Inv(s) && q != [] && q in s.global && Erased(s, t, q) && !HasContent(s, q)
    ensures NodeOk(t, r)
  {
    assert NodeOk(s, r);
    hide GlobalOk, LocalOk;
    if Under(q, r) {
      ErasedInside(s, t, q, r);
    } else {
      ErasedGlobalOutside(s, t, q, r);
      ErasedLocalOutside(s, t, q, r);
    }
  }

  lemma ErasedInside(s: State, t: State, q: Path, r: Path)
    requires q != [] && Erased(s, t, q) && !HasContent(s, q) && Under(q, r)
    ensures NodeOk(t, r)
  {
    NoContentBelow(s, q);
    assert Find(t.global, r) == GlobalErased(s, q, r) && Find(t.local, r) == LocalErased(s, q, r);
  }

  lemma NoContentBelow(s: State, q: Path)
    requires !HasContent(s, q)
    ensures forall r :: Under(q, r) ==> !HasContent(s, r)
  {
    forall r | Under(q, r) ensures !HasContent(s, r) {
      if HasContent(s, r) {
        var x :| x in s.local && Under(r, x) && s.local[x].values != map[];
        UnderTrans(q, r, x);
      }
    }
  }

  /** From outside a branch one step leads into it only at its top. */
  lemma StepInto(q: Path, r: Path, n: Name)
    requires q != [] && !Under(q, r)
    ensures Under(q, r + [n]) <==> r + [n] == q
  {
    if |q| <= |r| {
      assert (r + [n])[..|q|] == r[..|q|];
    }
  }

  /** Deleting a global group keeps the overlay invariant exactly when no local group below its local
      counterpart holds a value of its own; otherwise that counterpart stays, linked to nothing. */
  lemma ErasedInvIffNoContent(s: State, t: State, q: Path)
    requires Inv(s) && q != [] && q in s.global && Erased(s, t, q)
    ensures Inv(t) <==> !HasContent(s, q)
  {
    ErasedIds(s, t, q);
    if HasContent(s, q) {
      assert BranchOk(s, q);
      if q !in s.local {
        NoContentOutside(s, q);
      }
      assert Find(t.global, q) == GlobalErased(s, q, q) && Find(t.local, q) == LocalErased(s, q, q);
      assert !NodeOk(t, q);
    } else {
      assert !Under(q, []);
      assert Find(t.global, []) == GlobalErased(s, q, []) && Find(t.local, []) == LocalErased(s, q, []);
      forall r ensures NodeOk(t, r) {
        ErasedNode(s, t, q, r);
      }
    }
  }

  /** What shows after deleting a global group: below it each local group's own values, elsewhere what
      did. Of the local groups below it those stay at or below which there are own values. */
  lemma ErasedShown(s: State, t: State, q: Path, r: Path, key: Name)
    requires q != [] && Erased(s, t, q)
    ensures Shown(t, r, key) == if !Under(q, r) then Shown(s, r, key)
                                else if r in s.local then OwnValue(s.local[r].values, key) else Invalid
    ensures GlobalValue(t, r, key) == if Under(q, r) then Invalid else GlobalValue(s, r, key)
    ensures r in t.global <==> r in s.global && !Under(q, r)
    ensures r in t.local <==>
              (r in s.local && (!Under(q, r) || exists x :: x in s.local && Under(r, x) && s.local[x].values != map[]))
  {
    assert Find(t.global, r) == GlobalErased(s, q, r) && Find(t.local, r) == LocalErased(s, q, r);
    if r in s.local && s.local[r].values != map[] {
      UnderSelf(r);
      assert HasContent(s, r);
    }
  }

  // ---- Deleting a local group ----

  /** Every global group at or below `r` has a local one beside it and no value: deleting the local
      branch takes it along. */
  ghost predicate Bare(s: State, r: Path) {
    r in s.local && forall g :: g in s.global && Under(r, g) ==> g in s.local && s.global[g].values == map[]
  }

  /** The local branch goes; of the global one only what has values, or children that stay, stays. */
  ghost function GlobalKept(s: State, r: Path): Option<GlobalGroup> {
    if r in s.global && !Bare(s, r) then
      Some(s.global[r].(groupsNames := set m | m in s.global[r].groupsNames && !Bare(s, r + [m])))
    else None
  }

  ghost function GlobalRemoved(s: State, q: Path, r: Path): Option<GlobalGroup>
    requires q != []
  {
    if Under(q, r) then GlobalKept(s, r)
    else if r == Parent(q) && r in s.global && q in s.global && Bare(s, q) then
      Some(s.global[r].(groupsNames := s.global[r].groupsNames - {Last(q)}))
    else Find(s.global, r)
  }

  ghost function LocalRemoved(s: State, q: Path, r: Path): Option<LocalGroup>
    requires q != []
  {
    if Under(q, r) then None
    else if r == Parent(q) && r in s.local && (q !in s.global || Bare(s, q)) then
      Some(DropName(s.local[r], Last(q)))
    else Find(s.local, r)
  }

  /** What deleting the local group at `q` leads to; nothing happens if there is none. */
  ghost predicate Removed(s: State, t: State, q: Path)
    requires q != []
  {
    if q !in s.local then t == s
    else
      && t.nextId == s.nextId
      && forall r :: Find(t.global, r) == GlobalRemoved(s, q, r) && Find(t.local, r) == LocalRemoved(s, q, r)
  }

  ghost function GlobalLeaving(s: State, q: Path, done: set<Name>, r: Path): Option<GlobalGroup> {
    if r == q && q in s.global then
      Some(s.global[q].(groupsNames := set m | m in s.global[q].groupsNames && !(m in done && Bare(s, q + [m]))))
    else if Under(q, r) && r != q && r[|q|] in done then GlobalKept(s, r)
    else Find(s.global, r)
  }

  ghost function LocalLeaving(s: State, q: Path, done: set<Name>, r: Path): Option<LocalGroup> {
    if r == q && q in s.local then
      Some(s.local[q].(groupsNames := set m | m in s.local[q].groupsNames && !(m in done && Bare(s, q + [m]))))
    else if Under(q, r) && r != q && r[|q|] in done then None
    else Find(s.local, r)
  }

  /** The same while only the children named in `done` have been deleted. */
  ghost predicate Leaving(s: State, t: State, q: Path, done: set<Name>) {
    t.nextId == s.nextId &&
    forall r :: Find(t.global, r) == GlobalLeaving(s, q, done, r) && Find(t.local, r) == LocalLeaving(s, q, done, r)
  }

  lemma SameBare(s: State, t: State, q: Path)
    requires forall r :: Under(q, r) ==> Find(t.local, r) == Find(s.local, r) && Find(t.global, r) == Find(s.global, r)
    ensures Bare(t, q) <==> Bare(s, q)
  {
    UnderSelf(q);
    assert Find(t.local, q) == Find(s.local, q);
    forall g | Under(q, g)
      ensures g in s.global <==> g in t.global
      ensures g in s.local <==> g in t.local
      ensures g in s.global ==> t.global[g].values == s.global[g].values
    {
      assert Find(t.local, g) == Find(s.local, g) && Find(t.global, g) == Find(s.global, g);
    }
  }

  lemma LeavingNone(s: State, q: Path)
    ensures Leaving(s, s, q, {})
  {
    forall r ensures Find(s.global, r) == GlobalLeaving(s, q, {}, r) && Find(s.local, r) == LocalLeaving(s, q, {}, r) {
      if r == q && q in s.local {
        assert s.local[q].groupsNames == LocalLeaving(s, q, {}, q).value.groupsNames;
      }
      if r == q && q in s.global {
        assert s.global[q].groupsNames == GlobalLeaving(s, q, {}, q).value.groupsNames;
      }
    }
  }

  lemma LeavingUntouched(s: State, t: State, q: Path, done: set<Name>, m: Name, r: Path)
    requires Leaving(s, t, q, done) && m !in done && Under(q + [m], r)
    ensures Find(t.global, r) == Find(s.global, r) && Find(t.local, r) == Find(s.local, r)
  {
    UnderChild(q, m, r);
  }

  lemma LeavingBare(s: State, t: State, q: Path, done: set<Name>, m: Name, r: Path)
    requires Leaving(s, t, q, done) && m !in done && Under(q + [m], r)
    ensures Bare(t, r) <==> Bare(s, r)
  {
    forall x | Under(r, x) ensures Find(t.local, x) == Find(s.local, x) && Find(t.global, x) == Find(s.global, x) {
      UnderTrans(q + [m], r, x);
      LeavingUntouched(s, t, q, done, m, x);
    }
    SameBare(s, t, r);
  }

  lemma LeavingKept(s: State, t: State, q: Path, done: set<Name>, m: Name, r: Path)
    requires Leaving(s, t, q, done) && m !in done && Under(q + [m], r)
    ensures GlobalKept(t, r) == GlobalKept(s, r)
  {
    LeavingUntouched(s, t, q, done, m, r);
    LeavingBare(s, t, q, done, m, r);
    forall k ensures Bare(t, r + [k]) <==> Bare(s, r + [k]) {
      assert (r + [k])[..|q| + 1] == r[..|q| + 1];
      LeavingBare(s, t, q, done, m, r + [k]);
    }
    if GlobalKept(s, r).Some? {
      assert GlobalKept(t, r).value.groupsNames == GlobalKept(s, r).value.groupsNames;
    }
  }

  /** Below a child with no local group nothing is bare. */
  lemma NoLocalKept(s: State, q: Path, m: Name, r: Path)
    requires BranchOk(s, q) && q + [m] !in s.local && Under(q + [m], r)
    ensures r !in s.local && GlobalKept(s, r) == Find(s.global, r)
  {
    UnderChild(q, m, r);
    BranchStep(s, q, r);
    forall k ensures r + [k] !in s.local {
      assert (r + [k])[..|q| + 1] == r[..|q| + 1];
      UnderChild(q, m, r + [k]);
      BranchStep(s, q, r + [k]);
    }
    if r in s.global {
      assert s.global[r].groupsNames == set k | k in s.global[r].groupsNames && !Bare(s, r + [k]);
    }
  }

  lemma LeavingStepAbsent(s: State, t: State, q: Path, done: set<Name>, m: Name, r: Path)
    requires BranchOk(s, q) && Leaving(s, t, q, done) && m !in done && q + [m] !in s.local
    ensures Find(t.global, r) == GlobalLeaving(s, q, done + {m}, r)
    ensures Find(t.local, r) == LocalLeaving(s, q, done + {m}, r)
  {
    UnderChild(q, m, r);
    assert Find(t.global, r) == GlobalLeaving(s, q, done, r) && Find(t.local, r) == LocalLeaving(s, q, done, r);
    if Under(q + [m], r) {
      NoLocalKept(s, q, m, r);
    } else if r == q {
      if q in s.global {
        assert GlobalLeaving(s, q, done + {m}, q).value.groupsNames == GlobalLeaving(s, q, done, q).value.groupsNames;
      }
      if q in s.local {
        assert LocalLeaving(s, q, done + {m}, q).value.groupsNames == LocalLeaving(s, q, done, q).value.groupsNames;
      }
    }
  }

  lemma LeavingStepPresent(s: State, t: State, u: State, q: Path, done: set<Name>, m: Name, r: Path)
    requires BranchOk(s, q) && Leaving(s, t, q, done) && m !in done && Removed(t, u, q + [m])
    requires q + [m] in s.local && q + [m] in t.local && q + [m] in t.global && (Bare(t, q + [m]) <==> Bare(s, q + [m]))
    ensures Find(u.global, r) == GlobalLeaving(s, q, done + {m}, r)
    ensures Find(u.local, r) == LocalLeaving(s, q, done + {m}, r)
  {
    UnderChild(q, m, r);
    ChildPath(q, m, q, m);
    assert Find(u.global, r) == GlobalRemoved(t, q + [m], r) && Find(u.local, r) == LocalRemoved(t, q + [m], r);
    assert Find(t.global, r) == GlobalLeaving(s, q, done, r) && Find(t.local, r) == LocalLeaving(s, q, done, r);
    if Under(q + [m], r) {
      LeavingKept(s, t, q, done, m, r);
    } else if r == q {
      if q in s.global {
        var names := GlobalLeaving(s, q, done, q).value.groupsNames;
        assert GlobalLeaving(s, q, done + {m}, q).value.groupsNames == if Bare(s, q + [m]) then names - {m} else names;
      }
      if q in s.local {
        var names := LocalLeaving(s, q, done, q).value.groupsNames;
        assert LocalLeaving(s, q, done + {m}, q).value.groupsNames == if Bare(s, q + [m]) then names - {m} else names;
      }
    }
  }

  /** Deleting one more child. */
  lemma LeavingStep(s: State, t: State, u: State, q: Path, done: set<Name>, m: Name)
    requires BranchOk(s, q) && Leaving(s, t, q, done) && m !in done && Removed(t, u, q + [m])
    ensures Leaving(s, u, q, done + {m})
  {
    var c := q + [m];
    UnderSelf(c);
    LeavingUntouched(s, t, q, done, m, c);
    LeavingBare(s, t, q, done, m, c);
    UnderChild(q, m, c);
    assert NodeOk(s, c);
    forall r ensures Find(u.global, r) == GlobalLeaving(s, q, done + {m}, r)
             ensures Find(u.local, r) == LocalLeaving(s, q, done + {m}, r) {
      if c in s.local {
        LeavingStepPresent(s, t, u, q, done, m, r);
      } else {
        LeavingStepAbsent(s, t, q, done, m, r);
      }
    }
  }

  // ---- The last step of deleting a local group ----

  /** All own values of the local group at `q` deleted. */
  function ClearLocal(s: State, q: Path): State {
    if q !in s.local then s
    else
      var names := if q in s.global then s.global[q].valuesNames else {};
      s.(local := s.local[q := s.local[q].(values := map[], valuesNames := names)])
  }

  lemma ClearLocalKeepsBare(s: State, q: Path, r: Path)
    ensures Bare(ClearLocal(s, q), r) <==> Bare(s, r)
  {
  }

  lemma ClearLocalKeepsKept(s: State, q: Path, r: Path)
    ensures GlobalKept(ClearLocal(s, q), r) == GlobalKept(s, r)
  {
    ClearLocalKeepsBare(s, q, r);
    forall k ensures Bare(ClearLocal(s, q), r + [k]) <==> Bare(s, r + [k]) {
      ClearLocalKeepsBare(s, q, r + [k]);
    }
    if GlobalKept(s, r).Some? {
      assert GlobalKept(ClearLocal(s, q), r).value.groupsNames == GlobalKept(s, r).value.groupsNames;
    }
  }

  lemma ClearLocalBranch(s: State, q: Path)
    requires BranchOk(s, q)
    ensures BranchOk(ClearLocal(s, q), q)
  {
    var c := ClearLocal(s, q);
    forall r | Under(q, r) ensures NodeOk(c, r) {
      assert NodeOk(s, r);
      if r != q {
        OtherNodesOk(s, c, q, r);
      }
    }
  }

  lemma BareHere(s: State, q: Path)
    requires BranchOk(s, q) && q in s.global && q in s.local
    ensures Bare(s, q) <==>
            s.global[q].values == map[] && forall m :: m in s.global[q].groupsNames ==> Bare(s, q + [m])
  {
    UnderSelf(q);
    assert NodeOk(s, q);
    if Bare(s, q) {
      forall m | m in s.global[q].groupsNames ensures Bare(s, q + [m]) {
        UnderSelf(q + [m]);
        BareBelow(s, q, m);
      }
    } else if s.global[q].values == map[] {
      var g :| g in s.global && Under(q, g) && !(g in s.local && s.global[g].values == map[]);
      BranchStep(s, q, g);
      UnderChild(q, g[|q|], g);
      assert !Bare(s, q + [g[|q|]]);
    }
  }

  lemma BareBelow(s: State, q: Path, m: Name)
    requires Bare(s, q) && q + [m] in s.global
    ensures Bare(s, q + [m])
  {
    UnderSelf(q + [m]);
    UnderChild(q, m, q + [m]);
    forall g | g in s.global && Under(q + [m], g) ensures g in s.local && s.global[g].values == map[] {
      UnderChild(q, m, g);
    }
  }

  /** The whole branch but its top has been dealt with. */
  ghost predicate AllLeft(s: State, t: State, q: Path) {
    q in s.local && Leaving(ClearLocal(s, q), t, q, s.local[q].groupsNames)
  }

  lemma AllLeftTop(s: State, t: State, q: Path)
    requires BranchOk(s, q) && AllLeft(s, t, q)
    ensures q in s.global && q in t.global && q in t.local && t.local[q].values == map[]
    ensures Some(t.global[q]) ==
            Some(s.global[q].(groupsNames := set m | m in s.global[q].groupsNames && !Bare(s, q + [m])))
    ensures t.global[q].valuesNames == {} && t.global[q].groupsNames == {} <==> Bare(s, q)
  {
    var c := ClearLocal(s, q);
    LocalNamesAreGlobal(s, q);
    UnderSelf(q);
    assert NodeOk(s, q);
    BareHere(s, q);
    forall m ensures Bare(c, q + [m]) <==> Bare(s, q + [m]) {
      ClearLocalKeepsBare(s, q, q + [m]);
    }
    var names := s.local[q].groupsNames;
    assert Find(t.global, q) == GlobalLeaving(c, q, names, q) && Find(t.local, q) == LocalLeaving(c, q, names, q);
    hide Bare, BranchOk, Leaving;
    assert t.global[q].groupsNames == set m | m in s.global[q].groupsNames && !Bare(s, q + [m]);
    if t.global[q].groupsNames == {} {
      forall m | m in s.global[q].groupsNames ensures Bare(s, q + [m]) {
        assert m !in t.global[q].groupsNames;
      }
    }
  }

  lemma AllLeftElsewhere(s: State, t: State, q: Path, r: Path)
    requires BranchOk(s, q) && AllLeft(s, t, q) && r != q
    ensures Find(t.global, r) == if Under(q, r) then GlobalKept(s, r) else Find(s.global, r)
    ensures Find(t.local, r) == if Under(q, r) then None else Find(s.local, r)
  {
    var c := ClearLocal(s, q);
    var names := s.local[q].groupsNames;
    assert Find(t.global, r) == GlobalLeaving(c, q, names, r) && Find(t.local, r) == LocalLeaving(c, q, names, r);
    ClearLocalKeepsKept(s, q, r);
    if Under(q, r) {
      LocalNamesAreGlobal(s, q);
      BranchStep(s, q, r);
    }
  }

  /** The global group keeps something: only the local one goes. */
  lemma RemoveBesideGlobal(s: State, t: State, q: Path)
    requires q != [] && BranchOk(s, q) && AllLeft(s, t, q) && !Bare(s, q)
    ensures Removed(s, t.(local := t.local - {q}), q)
  {
    var v := t.(local := t.local - {q});
    AllLeftTop(s, t, q);
    forall r ensures Find(v.global, r) == GlobalRemoved(s, q, r) && Find(v.local, r) == LocalRemoved(s, q, r) {
      UnderSelf(q);
      if r != q {
        AllLeftElsewhere(s, t, q, r);
      }
    }
  }

  /** The global group is bare: it goes first, and takes the local one along. */
  lemma RemoveWithGlobal(s: State, t: State, v: State, q: Path)
    requires q != [] && BranchOk(s, q) && AllLeft(s, t, q) && Bare(s, q) && Erased(t, v, q)
    ensures Removed(s, v, q)
  {
    AllLeftTop(s, t, q);
    AllLeftNoContent(s, t, q);
    forall r ensures Find(v.global, r) == GlobalRemoved(s, q, r) && Find(v.local, r) == LocalRemoved(s, q, r) {
      assert Find(v.global, r) == GlobalErased(t, q, r) && Find(v.local, r) == LocalErased(t, q, r);
      if Under(q, r) {
        BareGoes(s, q, r);
        NoContentBelow(t, q);
      } else {
        UnderSelf(q);
        AllLeftElsewhere(s, t, q, r);
      }
    }
  }

  lemma AllLeftNoContent(s: State, t: State, q: Path)
    requires BranchOk(s, q) && AllLeft(s, t, q)
    ensures !HasContent(t, q)
  {
    AllLeftTop(s, t, q);
    forall r | r in t.local && Under(q, r) ensures t.local[r].values == map[] {
      if r != q {
        AllLeftElsewhere(s, t, q, r);
      }
    }
  }

  /** Everything global below a bare group is bare. */
  lemma BareGoes(s: State, q: Path, r: Path)
    requires Bare(s, q) && Under(q, r)
    ensures r in s.global ==> Bare(s, r)
    ensures GlobalKept(s, r) == None
  {
    if r in s.global {
      forall g | g in s.global && Under(r, g) ensures g in s.local && s.global[g].values == map[] {
        UnderTrans(q, r, g);
      }
      UnderSelf(r);
    }
  }

  /** Then only the top of the branch is left on either side, and it is sound. */
  lemma AllLeftBranch(s: State, t: State, p: Path, n: Name)
    requires BranchOk(s, p + [n]) && AllLeft(s, t, p + [n]) && Bare(s, p + [n])
    requires p in s.global && p in s.local
    ensures BranchOk(t, p + [n])
  {
    var q := p + [n];
    AllLeftTop(s, t, q);
    ChildPath(p, n, p, n);
    AllLeftElsewhere(s, t, q, p);
    UnderSelf(q);
    assert NodeOk(s, q) && !Under(q, p);
    forall r | Under(q, r) && r != q ensures r !in t.global && r !in t.local {
      AllLeftElsewhere(s, t, q, r);
      BareGoes(s, q, r);
    }
    forall m ensures q + [m] !in t.global && q + [m] !in t.local {
      UnderSelf(q + [m]);
      UnderChild(q, m, q + [m]);
    }
    AllLeftLink(s, t, q);
    assert t.nextId == s.nextId;
    forall r | Under(q, r) ensures NodeOk(t, r) {
    }
  }

  lemma AllLeftLink(s: State, t: State, q: Path)
    requires BranchOk(s, q) && AllLeft(s, t, q)
    ensures q in t.local && q in s.local && t.local[q].link == s.local[q].link
    ensures q in s.global && t.local[q].valuesNames == s.global[q].valuesNames
    ensures q in s.global && t.local[q].groupsNames == set m | m in s.global[q].groupsNames && !Bare(s, q + [m])
  {
    var c := ClearLocal(s, q);
    var names := s.local[q].groupsNames;
    LocalNamesAreGlobal(s, q);
    assert Find(t.local, q) == LocalLeaving(c, q, names, q);
    forall m ensures Bare(c, q + [m]) <==> Bare(s, q + [m]) {
      ClearLocalKeepsBare(s, q, q + [m]);
    }
  }

  lemma SubIdsOk(s: State, t: State)
    requires IdsOk(s) && t.nextId == s.nextId
    requires forall r :: r in t.global ==> r in s.global && t.global[r].id == s.global[r].id
    requires forall r :: r in t.local ==> r in s.local && t.local[r].link == s.local[r].link
    ensures IdsOk(t)
  {
  }

  /** A local group the deletion of its global group left behind, empty. */
  ghost predicate StaleLeaf(s: State, q: Path) {
    && q !in s.global && q in s.local
    && s.local[q].values == map[] && s.local[q].valuesNames == {} && s.local[q].groupsNames == {}
    && (forall r :: Under(q, r) && r != q ==> r !in s.global && r !in s.local)
  }

  lemma RemoveStale(s: State, p: Path, n: Name)
    requires StaleLeaf(s, p + [n]) && p in s.local
    ensures Removed(s, s.(local := (s.local - {p + [n]})[p := DropName(s.local[p], n)]), p + [n])
  {
    var q := p + [n];
    var v := s.(local := (s.local - {q})[p := DropName(s.local[p], n)]);
    ChildPath(p, n, p, n);
    assert !Under(q, p);
    forall r ensures Find(v.global, r) == GlobalRemoved(s, q, r) && Find(v.local, r) == LocalRemoved(s, q, r) {
      UnderSelf(q);
    }
  }

  // ---- The invariant after deleting a local group ----

  lemma RemovedInside(s: State, t: State, q: Path, r: Path)
    requires Inv(s) && q != [] && q in s.local && Removed(s, t, q) && Under(q, r)
    ensures NodeOk(t, r)
  {
    assert NodeOk(s, r) && NodeOk(s, q);
    assert Find(t.global, r) == GlobalRemoved(s, q, r) && Find(t.local, r) == LocalRemoved(s, q, r);
    if r in t.global {
      forall m ensures m in t.global[r].groupsNames <==> r + [m] in t.global {
        assert Under(q, r + [m]) by {
          assert (r + [m])[..|q|] == r[..|q|];
        }
        assert Find(t.global, r + [m]) == GlobalRemoved(s, q, r + [m]);
      }
      var up := Parent(r);
      assert Find(t.global, up) == GlobalRemoved(s, q, up);
      if r != q {
        UnderParent(q, r);
        assert Under(up, r);
        if Bare(s, up) {
          BareGoes(s, up, r);
        }
      } else {
        assert !Under(q, up);
      }
    }
  }

  lemma RemovedOutside(s: State, t: State, q: Path, r: Path)
    requires Inv(s) && q != [] && q in s.local && Removed(s, t, q) && !Under(q, r)
    ensures NodeOk(t, r)
  {
    assert NodeOk(s, r) && NodeOk(s, q);
    UnderSelf(q);
    assert Find(t.global, q) == GlobalRemoved(s, q, q);
    assert Find(t.global, r) == GlobalRemoved(s, q, r) && Find(t.local, r) == LocalRemoved(s, q, r);
    forall n ensures r + [n] in t.global <==> r + [n] in s.global && !(r + [n] == q && Bare(s, q))
             ensures r + [n] in t.local <==> r + [n] in s.local && r + [n] != q
             ensures r + [n] == q <==> r == Parent(q) && n == Last(q) {
      StepInto(q, r, n);
      assert Find(t.global, r + [n]) == GlobalRemoved(s, q, r + [n]);
      assert Find(t.local, r + [n]) == LocalRemoved(s, q, r + [n]);
      ChildPath(Parent(q), Last(q), r, n);
      assert Parent(q) + [Last(q)] == q;
    }
    if r != [] {
      var up := Parent(r);
      assert Find(t.global, up) == GlobalRemoved(s, q, up) && Find(t.local, up) == LocalRemoved(s, q, up);
      if Under(q, up) {
        UnderTrans(q, up, r);
      }
    }
  }

  lemma RemovedIds(s: State, t: State, q: Path)
    requires IdsOk(s) && q != [] && q in s.local && Removed(s, t, q)
    ensures IdsOk(t)
  {
    forall r | r in t.global ensures r in s.global && t.global[r].id == s.global[r].id {
      assert Find(t.global, r) == GlobalRemoved(s, q, r);
    }
    forall r | r in t.local ensures r in s.local && t.local[r].link == s.local[r].link {
      assert Find(t.local, r) == LocalRemoved(s, q, r);
    }
    SubIdsOk(s, t);
  }

  /** Deleting a local group keeps the overlay invariant. */
  lemma RemovedKeepsInv(s: State, t: State, q: Path)
    requires Inv(s) && q != [] && Removed(s, t, q)
    ensures Inv(t)
  {
    if q in s.local {
      RemovedIds(s, t, q);
      assert !Under(q, []);
      assert Find(t.global, []) == GlobalRemoved(s, q, []) && Find(t.local, []) == LocalRemoved(s, q, []);
      forall r ensures NodeOk(t, r) {
        if Under(q, r) {
          RemovedInside(s, t, q, r);
        } else {
          RemovedOutside(s, t, q, r);
        }
      }
    }
  }

  /** What shows after deleting a local group: below it the global values, elsewhere what did. All local
      groups below it go, and just those global ones at and below which there is a local group everywhere
      and no value, so that no global value is lost. */
  lemma RemovedShown(s: State, t: State, q: Path, r: Path, key: Name)
    requires q != [] && q in s.local && Removed(s, t, q)
    ensures Shown(t, r, key) == if Under(q, r) then GlobalValue(s, r, key) else Shown(s, r, key)
    ensures GlobalValue(t, r, key) == GlobalValue(s, r, key)
    ensures r in t.local <==> r in s.local && !Under(q, r)
    ensures var kept := r !in s.local ||
                        exists x :: x in s.global && Under(r, x) && (x !in s.local || s.global[x].values != map[]);
            r in t.global <==> (r in s.global && (Under(q, r) ==> kept))
  {
    assert Find(t.global, r) == GlobalRemoved(s, q, r) && Find(t.local, r) == LocalRemoved(s, q, r);
    if r in s.global && Bare(s, r) {
      UnderSelf(r);
      assert s.global[r].values == map[];
    }
  }

  // ---- Between two children ----

  lemma SameBranchOk(s: State, t: State, q: Path, m: Name)
    requires BranchOk(s, q) && t.nextId == s.nextId
    requires forall r :: Under(q + [m], r) ==> Find(t.global, r) == Find(s.global, r) && Find(t.local, r) == Find(s.local, r)
    requires (q in s.global ==> q in t.global) && (q in s.local ==> q in t.local)
    ensures BranchOk(t, q + [m])
  {
    var c := q + [m];
    ChildPath(q, m, q, m);
    forall r | Under(c, r) ensures NodeOk(t, r) {
      UnderChild(q, m, r);
      assert NodeOk(s, r) && Find(t.global, r) == Find(s.global, r) && Find(t.local, r) == Find(s.local, r);
      forall k ensures Find(t.global, r + [k]) == Find(s.global, r + [k]) && Find(t.local, r + [k]) == Find(s.local, r + [k]) {
        assert (r + [k])[..|c|] == r[..|c|];
      }
      if r != c {
        UnderParent(c, r);
        assert Find(t.global, Parent(r)) == Find(s.global, Parent(r)) && Find(t.local, Parent(r)) == Find(s.local, Parent(r));
      }
    }
  }

  /** What deleting the global child `m` needs, before it is deleted. */
  lemma DuringReady(s: State, t: State, q: Path, done: set<Name>, m: Name)
    requires BranchOk(s, q) && q in s.global && During(s, t, q, done) && m !in done
    ensures BranchOk(t, q + [m]) && q in t.global
    ensures m in t.global[q].groupsNames <==> q + [m] in t.global
    ensures q in t.local ==> t.local[q].link == t.global[q].id
  {
    UnderSelf(q);
    assert NodeOk(s, q);
    assert Find(t.global, q) == GlobalDuring(s, q, done, q) && Find(t.local, q) == LocalDuring(s, q, done, q);
    forall r | Under(q + [m], r) ensures Find(t.global, r) == Find(s.global, r) && Find(t.local, r) == Find(s.local, r) {
      DuringUntouched(s, t, q, done, m, r);
    }
    SameBranchOk(s, t, q, m);
    UnderSelf(q + [m]);
    assert Find(t.global, q + [m]) == Find(s.global, q + [m]);
  }

  /** What deleting the local child `m` needs, before it is deleted. */
  lemma LeavingReady(s: State, t: State, q: Path, done: set<Name>, m: Name)
    requires BranchOk(s, q) && q in s.local && Leaving(s, t, q, done) && m !in done
    ensures BranchOk(t, q + [m]) && q in t.global && q in t.local
    ensures m in t.global[q].groupsNames <==> q + [m] in t.global
    ensures t.local[q].link == t.global[q].id
  {
    UnderSelf(q);
    assert NodeOk(s, q);
    assert Find(t.global, q) == GlobalLeaving(s, q, done, q) && Find(t.local, q) == LocalLeaving(s, q, done, q);
    forall r | Under(q + [m], r) ensures Find(t.global, r) == Find(s.global, r) && Find(t.local, r) == Find(s.local, r) {
      LeavingUntouched(s, t, q, done, m, r);
    }
    SameBranchOk(s, t, q, m);
    UnderSelf(q + [m]);
    assert Find(t.global, q + [m]) == Find(s.global, q + [m]);
  }

  /** Deleting never adds a group. */
  ghost predicate Within(s: State, t: State) {
    t.global.Keys <= s.global.Keys && t.local.Keys <= s.local.Keys
  }

  /** No path is longer than `depth`. */
  ghost predicate Shallow(s: State, depth: nat) {
    forall r :: r in s.global || r in s.local ==> |r| <= depth
  }

  lemma ShallowAt(s: State, depth: nat, r: Path)
    requires Shallow(s, depth) && (r in s.global || r in s.local)
    ensures |r| <= depth
  {
  }

  lemma WithinShallow(s: State, t: State, depth: nat)
    requires Shallow(s, depth) && Within(s, t)
    ensures Shallow(t, depth)
  {
  }

  lemma ErasedWithin(s: State, t: State, q: Path)
    requires q != [] && Erased(s, t, q)
    ensures Within(s, t)
  {
    forall r ensures r in t.global ==> r in s.global
             ensures r in t.local ==> r in s.local {
      assert Find(t.global, r) == GlobalErased(s, q, r) && Find(t.local, r) == LocalErased(s, q, r);
    }
  }

  lemma RemovedWithin(s: State, t: State, q: Path)
    requires q != [] && Removed(s, t, q)
    ensures Within(s, t)
  {
    if q in s.local {
      forall r ensures r in t.global ==> r in s.global
               ensures r in t.local ==> r in s.local {
        assert Find(t.global, r) == GlobalRemoved(s, q, r) && Find(t.local, r) == LocalRemoved(s, q, r);
      }
    }
  }

  lemma RemovedKeepsIds(s: State, t: State, q: Path)
    requires IdsOk(s) && q != [] && Removed(s, t, q)
    ensures IdsOk(t)
  {
    if q in s.local {
      RemovedIds(s, t, q);
    }
  }

  lemma RemovedOnce(s: State, t: State, u: State, q: Path)
    requires q != [] && q in s.local && Removed(s, t, q) && Removed(s, u, q)
    ensures t == u
  {
    forall r ensures Find(t.global, r) == Find(u.global, r) && Find(t.local, r) == Find(u.local, r) {
      assert Find(t.global, r) == GlobalRemoved(s, q, r) && Find(t.local, r) == LocalRemoved(s, q, r);
      assert Find(u.global, r) == GlobalRemoved(s, q, r) && Find(u.local, r) == LocalRemoved(s, q, r);
    }
    SameFinds(t.global, u.global);
    SameFinds(t.local, u.local);
  }

  lemma SameFinds<T>(a: map<Path, T>, b: map<Path, T>)
    requires forall r :: Find(a, r) == Find(b, r)
    ensures a == b
  {
    forall r ensures r in a <==> r in b
             ensures r in a ==> a[r] == b[r] {
      assert Find(a, r) == Find(b, r);
    }
  }

  /** A local group left empty when its global group's children are gone is a leaf. */
  lemma EmptyLeftIsStale(s: State, t: State, p: Path, n: Name)
    requires BranchOk(s, p + [n]) && p + [n] in s.global && p + [n] in t.local && p in s.global
    requires During(ClearGlobal(s, p + [n]), t, p + [n], s.global[p + [n]].groupsNames)
    requires t.local[p + [n]].groupsNames == {} && t.local[p + [n]].valuesNames == {}
    ensures StaleLeaf(TakeGlobal(t, p, n), p + [n])
  {
    var q := p + [n];
    var c := ClearGlobal(s, q);
    var all := s.global[q].groupsNames;
    var u := TakeGlobal(t, p, n);
    ChildPath(p, n, p, n);
    assert Find(t.local, q) == LocalDuring(c, q, all, q);
    AllChildrenGone(s, t, q);
    NoContentBelow(s, q);
    assert t.local[q].values.Keys == {};
    assert p != q && !Under(q, p) && Find(t.global, p) == GlobalDuring(c, q, all, p);
    assert u.local == t.local && q !in u.global;
    forall r | Under(q, r) && r != q ensures r !in u.global && r !in u.local {
      BranchStep(s, q, r);
      ClearKeepsContent(s, q, r);
      assert Find(t.global, r) == GlobalDuring(c, q, all, r) && Find(t.local, r) == LocalDuring(c, q, all, r);
    }
  }
}
