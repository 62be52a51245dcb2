/** The local settings tree over the global one. Each local group shows its own names and those of
    the global group it is linked to, kept in cached name sets by signals that the global groups emit
    synchronously. A group is known by its path from the root; `link` is the identity of the global
    group whose signals a local group hears. */
module SettingsTree {
  import opened Text

  type Name = string
  type Path = seq<Name>

  /** A setting's value; an invalid one stands for none. */
  datatype Variant = Invalid | Valid(text: string)

  datatype GlobalGroup = GlobalGroup(
    id: nat,
    values: map<Name, string>,
    valuesNames: set<Name>,
    groupsNames: set<Name>)

  datatype LocalGroup = LocalGroup(
    link: nat,
    values: map<Name, string>,
    valuesNames: set<Name>,
    groupsNames: set<Name>)

  type GlobalTree = map<Path, GlobalGroup>
  type LocalTree = map<Path, LocalGroup>

  datatype State = State(global: GlobalTree, local: LocalTree, nextId: nat)

  function Find<T>(tree: map<Path, T>, p: Path): Option<T> {
    if p in tree then Some(tree[p]) else None
  }

  function Parent(p: Path): Path
    requires p != []
  {
    p[..|p| - 1]
  }

  function Last(p: Path): Name
    requires p != []
  {
    p[|p| - 1]
  }

  /** `r` is `q` or a group somewhere below it. */
  predicate Under(q: Path, r: Path) { |q| <= |r| && r[..|q|] == q }

  lemma UnderSelf(q: Path)
    ensures Under(q, q)
  {
  }

  /** Everything strictly below `q` is below one of its children, named by the next step. */
  lemma UnderChild(q: Path, m: Name, r: Path)
    ensures Under(q + [m], r) <==> Under(q, r) && r != q && r[|q|] == m
  {
    if Under(q + [m], r) {
      assert r[..|q|] == (q + [m])[..|q|] == q;
      assert r[|q|] == r[..|q| + 1][|q|];
    }
    if Under(q, r) && r != q && r[|q|] == m {
      assert r == q + r[|q|..];
      assert r[..|q| + 1] == q + [m];
    }
  }

  lemma UnderTrans(p: Path, q: Path, r: Path)
    requires Under(p, q) && Under(q, r)
    ensures Under(p, r)
  {
    assert r[..|p|] == r[..|q|][..|p|];
  }

  lemma UnderParent(q: Path, r: Path)
    requires Under(q, r) && r != q
    ensures r != [] && Under(q, Parent(r))
  {
    assert Parent(r)[..|q|] == r[..|q|];
  }

  // ---- The overlay invariant ----

  ghost predicate GlobalOk(s: State, r: Path) {
    r in s.global ==>
      var g := s.global[r];
      && g.valuesNames == g.values.Keys
      && (forall n :: n in g.groupsNames <==> r + [n] in s.global)
      && (r != [] ==> Parent(r) in s.global)
      && g.id < s.nextId
  }

  /** A local group is linked to the global group at its path; its names are its own and that one's. */
  ghost predicate LocalOk(s: State, r: Path) {
    r in s.local ==>
      var l := s.local[r];
      && r in s.global && l.link == s.global[r].id
      && l.valuesNames == l.values.Keys + s.global[r].valuesNames
      && (forall n :: n in l.groupsNames <==> r + [n] in s.local || n in s.global[r].groupsNames)
      && (r != [] ==> Parent(r) in s.local)
  }

  ghost predicate NodeOk(s: State, r: Path) { GlobalOk(s, r) && LocalOk(s, r) }

  /** No two global groups share an identity, and a local group hears at most the one at its path. */
  predicate IdsOk(s: State) {
    && (forall p, q :: p in s.global && q in s.global && s.global[p].id == s.global[q].id ==> p == q)
    && (forall p, q :: p in s.local && q in s.global && s.local[p].link == s.global[q].id ==> p == q)
    && (forall p :: p in s.global ==> s.global[p].id < s.nextId)
    && (forall p :: p in s.local ==> s.local[p].link < s.nextId)
  }

  ghost predicate Inv(s: State) {
    [] in s.global && [] in s.local && IdsOk(s) && forall r :: NodeOk(s, r)
  }

  /** The groups a signal of the global group at `p` reaches. */
  predicate Hears(s: State, p: Path, listener: Path) {
    p in s.global && listener in s.local && s.local[listener].link == s.global[p].id
  }

  /** The signals of every global group reach the local group at the same path or nobody. */
  ghost predicate OnlyMirrorsHear(s: State) {
    forall p, listener :: Hears(s, p, listener) ==> listener == p
  }

  lemma OnlyMirrorHears(s: State)
    requires IdsOk(s)
    ensures OnlyMirrorsHear(s)
  {
  }

  // ---- What a setting shows ----

  function OwnValue(values: map<Name, string>, key: Name): Variant {
    if key in values then Valid(values[key]) else Invalid
  }

  function GlobalValue(s: State, p: Path, key: Name): Variant {
    if p in s.global then OwnValue(s.global[p].values, key) else Invalid
  }

  /** A local group shows its own value, else its global group's. */
  function Shown(s: State, p: Path, key: Name): Variant {
    if p in s.local && key in s.local[p].values then Valid(s.local[p].values[key]) else GlobalValue(s, p, key)
  }

  // ---- Setting a value ----

  function Store(values: map<Name, string>, key: Name, v: Variant): map<Name, string> {
    match v
    case Invalid => values - {key}
    case Valid(text) => values[key := text]
  }

  /** The handler for a change of a value in the global group. */
  function HearValue(l: LocalGroup, key: Name, v: Variant): LocalGroup {
    if v.Valid? then l.(valuesNames := l.valuesNames + {key})
    else if key !in l.values then l.(valuesNames := l.valuesNames - {key})
    else l
  }

  function SetGlobal(s: State, p: Path, key: Name, v: Variant): State {
    if p !in s.global || OwnValue(s.global[p].values, key) == v then s
    else
      var g := s.global[p];
      var names := if v.Valid? then g.valuesNames + {key} else g.valuesNames - {key};
      var local := if p in s.local && s.local[p].link == g.id then s.local[p := HearValue(s.local[p], key, v)] else s.local;
      s.(global := s.global[p := g.(values := Store(g.values, key, v), valuesNames := names)], local := local)
  }

  function SetLocal(s: State, p: Path, key: Name, v: Variant): State {
    if p !in s.local || OwnValue(s.local[p].values, key) == v then s
    else
      var l := s.local[p];
      var inherited := p in s.global && key in s.global[p].valuesNames;
      var names := if v.Valid? then l.valuesNames + {key} else if inherited then l.valuesNames else l.valuesNames - {key};
      s.(local := s.local[p := l.(values := Store(l.values, key, v), valuesNames := names)])
  }

  /** A change of one node that keeps names and links of groups keeps every other node's condition. */
  lemma OtherNodesOk(s: State, t: State, p: Path, r: Path)
    requires NodeOk(s, r) && r != p
    requires t.global.Keys == s.global.Keys && t.local.Keys == s.local.Keys && t.nextId == s.nextId
    requires forall q :: q != p ==> Find(t.global, q) == Find(s.global, q) && Find(t.local, q) == Find(s.local, q)
    ensures NodeOk(t, r)
  {
    assert Find(t.global, r) == Find(s.global, r) && Find(t.local, r) == Find(s.local, r);
    assert r != [] ==> (Parent(r) in t.global <==> Parent(r) in s.global);
  }

  /** Identities and links are left alone. */
  predicate SameIds(s: State, t: State) {
    && t.global.Keys == s.global.Keys && t.local.Keys == s.local.Keys && t.nextId == s.nextId
    && (forall p :: p in s.global ==> t.global[p].id == s.global[p].id)
    && (forall p :: p in s.local ==> t.local[p].link == s.local[p].link)
  }

  lemma SameIdsOk(s: State, t: State)
    requires IdsOk(s) && SameIds(s, t)
    ensures IdsOk(t)
  {
  }

  lemma OneNodeChanged(s: State, t: State, p: Path)
    requires Inv(s) && SameIds(s, t) && NodeOk(t, p)
    requires forall q :: q != p ==> Find(t.global, q) == Find(s.global, q) && Find(t.local, q) == Find(s.local, q)
    ensures Inv(t)
  {
    SameIdsOk(s, t);
    forall r ensures NodeOk(t, r) {
      assert NodeOk(s, r);
      if r != p {
        OtherNodesOk(s, t, p, r);
      }
    }
  }

  lemma SetGlobalNode(s: State, p: Path, key: Name, v: Variant)
    requires NodeOk(s, p)
    ensures NodeOk(SetGlobal(s, p, key, v), p)
  {
  }

  lemma SetGlobalKeepsInv(s: State, p: Path, key: Name, v: Variant)
    requires Inv(s)
    ensures Inv(SetGlobal(s, p, key, v))
  {
    var t := SetGlobal(s, p, key, v);
    assert NodeOk(s, p);
    SetGlobalNode(s, p, key, v);
    hide NodeOk, IdsOk;
    if t != s {
      OneNodeChanged(s, t, p);
    }
  }

  lemma SetLocalNode(s: State, p: Path, key: Name, v: Variant)
    requires NodeOk(s, p)
    ensures NodeOk(SetLocal(s, p, key, v), p)
  {
  }

  lemma SetLocalKeepsInv(s: State, p: Path, key: Name, v: Variant)
    requires Inv(s)
    ensures Inv(SetLocal(s, p, key, v))
  {
    var t := SetLocal(s, p, key, v);
    assert NodeOk(s, p);
    SetLocalNode(s, p, key, v);
    hide NodeOk, IdsOk;
    if t != s {
      OneNodeChanged(s, t, p);
    }
  }

  /** A local write is what the group shows from then on, unless it takes its own value away; every
      other setting shows what it did. */
  lemma SetLocalShown(s: State, p: Path, key: Name, v: Variant, r: Path, other: Name)
    requires Inv(s) && p in s.local
    ensures var t := SetLocal(s, p, key, v);
            Shown(t, r, other) ==
            if (r, other) != (p, key) then Shown(s, r, other)
            else if v.Valid? then v
            else GlobalValue(s, p, key)
    ensures var t := SetLocal(s, p, key, v); t.global == s.global && OwnValue(t.local[p].values, key) == v
  {
  }

  /** A global write shows through exactly where no own value hides it. */
  lemma SetGlobalShown(s: State, p: Path, key: Name, v: Variant, r: Path, other: Name)
    requires Inv(s) && p in s.global
    ensures var t := SetGlobal(s, p, key, v);
            Shown(t, r, other) ==
            if (r, other) == (p, key) && (p !in s.local || key !in s.local[p].values) then v
            else Shown(s, r, other)
    ensures var t := SetGlobal(s, p, key, v);
            && GlobalValue(t, r, other) == (if (r, other) == (p, key) then v else GlobalValue(s, r, other))
            && (r in s.local ==> r in t.local && t.local[r].values == s.local[r].values)
  {
  }

  // ---- Adding a group ----

  /** The global half: a new global group, heard by the local group above it. */
  function AddGlobal(s: State, p: Path, n: Name): State {
    var q := p + [n];
    if p !in s.global || q in s.global then s
    else
      var g := s.global[p];
      var local := if p in s.local && s.local[p].link == g.id
                   then s.local[p := s.local[p].(groupsNames := s.local[p].groupsNames + {n})] else s.local;
      State(s.global[p := g.(groupsNames := g.groupsNames + {n})][q := GlobalGroup(s.nextId, map[], {}, {})],
            local, s.nextId + 1)
  }

  /** The local half: a new local group that starts with the names of the global one. */
  function LinkLocal(s: State, p: Path, n: Name): State {
    var q := p + [n];
    if q !in s.global || p !in s.local then s
    else
      var g := s.global[q];
      var above := s.local[p].(groupsNames := s.local[p].groupsNames + {n});
      s.(local := s.local[q := LocalGroup(g.id, map[], g.valuesNames, g.groupsNames)][p := above])
  }

  function AddLocal(s: State, p: Path, n: Name): State {
    if p !in s.local || p + [n] in s.local then s else LinkLocal(AddGlobal(s, p, n), p, n)
  }

  lemma ChildPath(p: Path, n: Name, r: Path, m: Name)
    ensures r + [m] == p + [n] <==> r == p && m == n
    ensures Parent(p + [n]) == p && Last(p + [n]) == n
  {
    if r + [m] == p + [n] {
      assert (r + [m])[..|r|] == r && (p + [n])[..|p|] == p;
      assert (r + [m])[|r|] == m && (p + [n])[|p|] == n;
    }
  }

  lemma AddGlobalShown(s: State, p: Path, n: Name, r: Path, key: Name)
    requires p in s.global
    ensures var t := AddGlobal(s, p, n);
            && (r in t.global <==> r in s.global || r == p + [n]) && GlobalValue(t, r, key) == GlobalValue(s, r, key)
            && (r in t.local <==> r in s.local) && (r in t.local ==> t.local[r].values == s.local[r].values)
  {
    ChildPath(p, n, p, n);
  }

  lemma LinkLocalShown(s: State, p: Path, n: Name, r: Path)
    requires p in s.local && p + [n] in s.global && p + [n] !in s.local
    ensures var t := LinkLocal(s, p, n);
            && t.global == s.global && (r in t.local <==> r in s.local || r == p + [n])
            && (r in t.local ==> t.local[r].values == if r in s.local then s.local[r].values else map[])
  {
    ChildPath(p, n, p, n);
  }

  /** Adding a group adds just that group, with no values of its own, and its counterpart if it was missing;
      every setting shows what it did. */
  lemma AddLocalShown(s: State, p: Path, n: Name, r: Path, key: Name)
    requires Inv(s) && p in s.local
    ensures var t := AddLocal(s, p, n);
            && Shown(t, r, key) == Shown(s, r, key) && GlobalValue(t, r, key) == GlobalValue(s, r, key)
            && (r in t.local <==> r in s.local || r == p + [n]) && (r in t.global <==> r in s.global || r == p + [n])
            && (r in t.local ==> t.local[r].values == if r in s.local then s.local[r].values else map[])
  {
    assert NodeOk(s, p) && NodeOk(s, p + [n]);
    hide Inv, AddGlobal, LinkLocal;
    var u := AddGlobal(s, p, n);
    AddGlobalShown(s, p, n, r, key);
    if p + [n] !in s.local {
      AddGlobalShown(s, p, n, p, key);
      AddGlobalShown(s, p, n, p + [n], key);
      LinkLocalShown(u, p, n, r);
    }
  }

  lemma NoChildrenYet(s: State, q: Path)
    requires Inv(s)
    ensures q !in s.global ==> q !in s.local && forall m :: q + [m] !in s.global
    ensures q !in s.local ==> forall m :: q + [m] !in s.local
  {
    assert NodeOk(s, q);
    forall m ensures q !in s.global ==> q + [m] !in s.global
             ensures q !in s.local ==> q + [m] !in s.local {
      ChildPath(q, m, q, m);
      assert NodeOk(s, q + [m]);
    }
  }

  lemma AddGlobalNodes(s: State, p: Path, n: Name, r: Path)
    requires Inv(s) && p in s.global && p + [n] !in s.global
    ensures GlobalOk(AddGlobal(s, p, n), r)
    ensures LocalOk(AddGlobal(s, p, n), r)
  {
    var q := p + [n];
    assert NodeOk(s, r) && NodeOk(s, p);
    NoChildrenYet(s, q);
    forall m ensures r + [m] == q <==> r == p && m == n {
      ChildPath(p, n, r, m);
    }
    ChildPath(p, n, p, n);
    hide Parent, IdsOk;
    if r == q {
    } else if r == p {
    } else {
    }
  }

  lemma AddGlobalIds(s: State, p: Path, n: Name)
    requires IdsOk(s) && p in s.global && p + [n] !in s.global
    ensures IdsOk(AddGlobal(s, p, n))
  {
    var q := p + [n];
    var t := AddGlobal(s, p, n);
    assert t.global.Keys == s.global.Keys + {q} && t.local.Keys == s.local.Keys;
    assert t.global[q].id == s.nextId;
    assert forall r :: r in s.global ==> t.global[r].id == s.global[r].id;
    assert forall r :: r in s.local ==> t.local[r].link == s.local[r].link;
    hide AddGlobal;
  }

  lemma AddGlobalKeepsInv(s: State, p: Path, n: Name)
    requires Inv(s)
    ensures Inv(AddGlobal(s, p, n))
  {
    var t := AddGlobal(s, p, n);
    if t != s {
      AddGlobalIds(s, p, n);
      forall r ensures NodeOk(t, r) {
        AddGlobalNodes(s, p, n, r);
      }
    }
  }

  lemma LinkLocalNodes(s: State, p: Path, n: Name, r: Path)
    requires Inv(s) && p in s.local && p + [n] in s.global && p + [n] !in s.local
    ensures LocalOk(LinkLocal(s, p, n), r)
  {
    var q := p + [n];
    var t := LinkLocal(s, p, n);
    assert LocalOk(s, r) && LocalOk(s, p) && GlobalOk(s, q) by {
      assert NodeOk(s, r) && NodeOk(s, p) && NodeOk(s, q);
    }
    NoChildrenYet(s, q);
    ChildPath(p, n, p, n);
    assert t.global == s.global && t.local.Keys == s.local.Keys + {q};
    assert r != p && r != q && r in s.local ==> t.local[r] == s.local[r];
    assert p != q;
    forall m ensures r + [m] in t.local <==> r + [m] in s.local || (r == p && m == n) {
      ChildPath(p, n, r, m);
    }
    hide Inv, NodeOk;
    if r == q {
      assert t.local[q] == LocalGroup(s.global[q].id, map[], s.global[q].valuesNames, s.global[q].groupsNames);
      hide LinkLocal;
    } else if r == p {
      assert t.local[p] == s.local[p].(groupsNames := s.local[p].groupsNames + {n});
      hide LinkLocal;
    } else {
      hide LinkLocal;
    }
  }

  lemma LinkLocalIds(s: State, p: Path, n: Name)
    requires IdsOk(s) && p in s.local && p + [n] in s.global && p + [n] !in s.local
    ensures IdsOk(LinkLocal(s, p, n))
  {
    var q := p + [n];
    var t := LinkLocal(s, p, n);
    assert t.local.Keys == s.local.Keys + {q} && t.local[q].link == s.global[q].id;
    assert forall r :: r in s.local ==> t.local[r].link == s.local[r].link;
    hide LinkLocal;
  }

  lemma LinkLocalKeepsInv(s: State, p: Path, n: Name)
    requires Inv(s) && p in s.local && p + [n] in s.global && p + [n] !in s.local
    ensures Inv(LinkLocal(s, p, n)) && p + [n] in LinkLocal(s, p, n).local
  {
    var t := LinkLocal(s, p, n);
    LinkLocalIds(s, p, n);
    forall r ensures NodeOk(t, r) {
      assert NodeOk(s, r);
      LinkLocalNodes(s, p, n, r);
    }
  }

  lemma AddLocalKeepsInv(s: State, p: Path, n: Name)
    requires Inv(s)
    ensures Inv(AddLocal(s, p, n))
    ensures p in s.local ==> p + [n] in AddLocal(s, p, n).local
  {
    assert NodeOk(s, p);
    if p in s.local && p + [n] !in s.local {
      AddGlobalKeepsInv(s, p, n);
      LinkLocalKeepsInv(AddGlobal(s, p, n), p, n);
    }
  }
}
