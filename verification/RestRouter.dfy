/** The tree that maps request paths to endpoints. */
module RestRouter {
  import opened RestNames
  import opened Text

  datatype Slot = Slot(name: string, tag: string)

  /** What a node of the tree holds; no value if no endpoint is registered there. */
  datatype Entry = Entry(value: string, tag: string)

  const NOTHING := Entry("", "")

  /** The tree as the paths that have nodes. */
  type Table = map<Path, Entry>

  const EMPTY: Table := map[[] := NOTHING]

  // ---- Registering ----

  function WithNode(t: Table, p: Path): Table { if p in t then t else t[p := NOTHING] }

  /** Nodes for `p` and everything above it. */
  function Grown(t: Table, p: Path): (r: Table)
    ensures p != [] ==> p in r
    ensures forall q :: q in t ==> q in r
  {
    if p == [] then t else WithNode(Grown(t, p[..|p| - 1]), p)
  }

  function Registered(t: Table, slot: Slot): Table
    requires IsEndpoint(slot.name)
  {
    Grown(t, PathOf(slot.name))[PathOf(slot.name) := Entry(slot.name, slot.tag)]
  }

  /** The table of all slots, those that are no endpoints left out. */
  function Filled(slots: seq<Slot>): (t: Table)
    ensures [] in t
  {
    if slots == [] then EMPTY
    else
      var n := |slots| - 1;
      if IsEndpoint(slots[n].name) then Registered(Filled(slots[..n]), slots[n]) else Filled(slots[..n])
  }

  // ---- Finding ----

  /** How many parts of `low` have nodes, given that the first `i` have. */
  function Depth(t: Table, low: Path, i: nat): (d: nat)
    requires i <= |low| && low[..i] in t
    ensures i <= d <= |low| && low[..d] in t
    ensures forall k :: i <= k <= d ==> low[..k] in t
    ensures d < |low| ==> low[..d + 1] !in t
    decreases |low| - i
  {
    if i < |low| && low[..i + 1] in t then Depth(t, low, i + 1) else i
  }

  function Lowered(parts: seq<string>): (low: Path)
    ensures |low| == |parts| && forall i :: 0 <= i < |parts| ==> low[i] == Lower(parts[i])
  {
    seq(|parts|, i requires 0 <= i < |parts| => Lower(parts[i]))
  }

  /** The entry that answers a request, given what is in the tree. */
  function Answer(t: Table, parts: seq<string>): Option<Entry>
    requires [] in t
  {
    if |parts| < 2 then None
    else
      var low := Lowered(parts);
      var entry := t[low[..Depth(t, low, 0)]];
      if entry.value == "" then None else Some(entry)
  }

  function Decoded(parts: seq<string>, decode: string -> string): (r: seq<string>)
    ensures |r| == |parts| && forall i :: 0 <= i < |parts| ==> r[i] == decode(parts[i])
  {
    seq(|parts|, i requires 0 <= i < |parts| => decode(parts[i]))
  }

  /** A node of the tree; its children are given by their positions in the list of all nodes. */
  datatype MethodNode = MethodNode(nodes: map<string, nat>, value: string, tag: string)

  const NEW_NODE := MethodNode(map[], "", "")

  lemma GrownOn(t: Table, p: Path, i: nat)
    requires i < |p|
    ensures p[..i + 1] == Below(p[..i], p[i])
    ensures Grown(t, p[..i + 1]) == WithNode(Grown(t, p[..i]), p[..i + 1])
  {
    assert p[..i + 1][..i] == p[..i];
  }

  lemma DepthStep(t: Table, low: Path, i: nat)
    requires i < |low| && low[..i] in t
    ensures low[..i + 1] == Below(low[..i], low[i])
    ensures Depth(t, low, i) == if low[..i + 1] in t then Depth(t, low, i + 1) else i
  {
  }

  lemma DepthEnd(t: Table, low: Path, i: nat)
    requires i <= |low| && low[..i] in t && (i < |low| ==> low[..i + 1] !in t)
    ensures Depth(t, low, i) == i
  {
  }

  /** The path of a child. */
  function Below(p: Path, n: string): (c: Path)
    ensures c != []
  {
    p + [n]
  }

  function Above(p: Path): Path
    requires p != []
  {
    p[..|p| - 1]
  }

  lemma BelowUnique(p: Path, n: string, q: Path, m: string)
    ensures Below(p, n) == Below(q, m) <==> p == q && n == m
    ensures Above(Below(p, n)) == p && Below(p, n) != p
  {
    if Below(p, n) == Below(q, m) {
      assert Above(Below(p, n)) == p && Above(Below(q, m)) == q;
      assert Below(p, n)[|p|] == n && Below(q, m)[|q|] == m;
    }
    assert |Below(p, n)| == |p| + 1;
  }

  /** All nodes, the position of the node at every path, and the path of the node at every position. */
  datatype Tree = Tree(nodes: seq<MethodNode>, at: map<Path, nat>, home: seq<Path>)

  const ONLY_ROOT := Tree([NEW_NODE], map[[] := 0], [[]])

  /** A set of paths that has `p` has the one above it. */
  ghost predicate Closed(paths: set<Path>) { forall p :: p in paths && p != [] ==> Above(p) in paths }

  /** `kids` are the nodes at the paths below `p`. */
  ghost predicate Linked(at: map<Path, nat>, p: Path, kids: map<string, nat>) {
    && (forall n :: n in kids ==> Below(p, n) in at && kids[n] == at[Below(p, n)])
    && (forall n :: Below(p, n) in at ==> n in kids)
  }

  /** Every node is at one path only, and is the child of the node above it. */
  ghost predicate TreeOk(t: Tree) {
    && [] in t.at && t.at[[]] == 0 && |t.home| == |t.nodes| && Closed(t.at.Keys)
    && (forall p :: p in t.at ==> t.at[p] < |t.nodes| && t.home[t.at[p]] == p)
    && (forall p :: p in t.at ==> t.at[p] < |t.nodes| && Linked(t.at, p, t.nodes[t.at[p]].nodes))
  }

  function EntryOf(n: MethodNode): Entry { Entry(n.value, n.tag) }

  ghost function ContentsOf(t: Tree): (c: Table)
    requires forall p :: p in t.at ==> t.at[p] < |t.nodes|
    ensures c.Keys == t.at.Keys
  {
    map p | p in t.at :: EntryOf(t.nodes[t.at[p]])
  }

  /** The tree with a new child for the node at `p`. */
  function Grafted(t: Tree, p: Path, name: string): Tree
    requires p in t.at && t.at[p] < |t.nodes|
  {
    var k := t.at[p];
    var made := |t.nodes|;
    Tree(t.nodes[k := t.nodes[k].(nodes := t.nodes[k].nodes[name := made])] + [NEW_NODE],
         t.at[Below(p, name) := made], t.home + [Below(p, name)])
  }

  lemma LinkedGrows(at: map<Path, nat>, p: Path, name: string, made: nat, q: Path, kids: map<string, nat>)
    requires Below(p, name) !in at && Linked(at, q, kids)
    ensures Linked(at[Below(p, name) := made], q, if q == p then kids[name := made] else kids)
  {
    forall n ensures Below(q, n) == Below(p, name) <==> q == p && n == name {
      BelowUnique(q, n, p, name);
    }
    hide Below;
  }

  lemma LinkedNew(at: map<Path, nat>, p: Path, name: string, made: nat)
    requires Closed(at.Keys) && p in at && Below(p, name) !in at
    ensures var at' := at[Below(p, name) := made]; Closed(at'.Keys) && Linked(at', Below(p, name), map[])
  {
    var c := Below(p, name);
    BelowUnique(p, name, p, name);
    forall m ensures Below(c, m) !in at && Below(c, m) != c {
      BelowUnique(c, m, p, name);
    }
    hide Below;
  }

  lemma GraftedOk(t: Tree, p: Path, name: string)
    requires TreeOk(t) && p in t.at && name !in t.nodes[t.at[p]].nodes
    ensures Below(p, name) !in t.at && TreeOk(Grafted(t, p, name))
  {
    var c, k, u := Below(p, name), t.at[p], Grafted(t, p, name);
    assert Linked(t.at, p, t.nodes[k].nodes);
    assert c !in t.at;
    LinkedNew(t.at, p, name, |t.nodes|);
    hide Below, Closed, Linked;
    forall q | q in t.at ensures Linked(u.at, q, u.nodes[u.at[q]].nodes) {
      LinkedGrows(t.at, p, name, |t.nodes|, q, t.nodes[t.at[q]].nodes);
    }
  }

  lemma GraftedContents(t: Tree, p: Path, name: string)
    requires TreeOk(t) && p in t.at && name !in t.nodes[t.at[p]].nodes
    ensures TreeOk(Grafted(t, p, name))
    ensures ContentsOf(Grafted(t, p, name)) == ContentsOf(t)[Below(p, name) := NOTHING]
  {
    GraftedOk(t, p, name);
    hide Below, Closed, Linked;
  }

  lemma EntryChanged(t: Tree, p: Path, value: string, tag: string)
    requires TreeOk(t) && p in t.at
    ensures var k := t.at[p];
            var u := t.(nodes := t.nodes[k := t.nodes[k].(value := value, tag := tag)]);
            TreeOk(u) && ContentsOf(u) == ContentsOf(t)[p := Entry(value, tag)]
  {
    hide Closed, Linked;
  }

  lemma OnlyRootOk()
    ensures TreeOk(ONLY_ROOT) && ContentsOf(ONLY_ROOT) == EMPTY
  {
    forall n ensures Below([], n) != [] {
    }
  }

  class Router {
    var nodes: seq<MethodNode>
    /** Where in the tree the nodes are. */
    ghost var at: map<Path, nat>
    ghost var home: seq<Path>

    ghost function View(): Tree
      reads this
    {
      Tree(nodes, at, home)
    }

    ghost predicate Valid()
      reads this
    {
      TreeOk(View()) && EntryOf(nodes[0]) == NOTHING
    }

    ghost function Contents(): Table
      requires Valid()
      reads this
    {
      ContentsOf(View())
    }

    constructor ()
      ensures Valid() && Contents() == EMPTY
    {
      nodes, at, home := [NEW_NODE], map[[] := 0], [[]];
      new;
      OnlyRootOk();
      assert View() == ONLY_ROOT;
    }

    /** The child of a node, made if it is not there. */
    method Child(ghost p: Path, node: nat, name: string) returns (child: nat)
      requires Valid() && p in at && at[p] == node
      modifies this
      ensures Valid()
      ensures Below(p, name) in at && at[Below(p, name)] == child
      ensures Contents() == WithNode(old(Contents()), Below(p, name))
    {
      assert Linked(at, p, nodes[node].nodes) && node < |nodes|;
      if name !in nodes[node].nodes {
        GraftedContents(View(), p, name);
        ghost var grafted := Grafted(View(), p, name);
        nodes := nodes[node := nodes[node].(nodes := nodes[node].nodes[name := |nodes|])] + [NEW_NODE];
        at, home := grafted.at, grafted.home;
        assert View() == grafted;
        child := |nodes| - 1;
      } else {
        child := nodes[node].nodes[name];
      }
      hide TreeOk, Linked, Below, ContentsOf;
    }

    method SetEntry(ghost p: Path, node: nat, value: string, tag: string)
      requires Valid() && p in at && at[p] == node && p != []
      modifies this`nodes
      ensures Valid() && Contents() == old(Contents())[p := Entry(value, tag)]
    {
      EntryChanged(View(), p, value, tag);
      nodes := nodes[node := nodes[node].(value := value, tag := tag)];
    }

    /** Registers an endpoint: the nodes on its path are made as needed, and the last gets the entry. */
    method AddMethodToTree(realMethod: string, tag: string)
      requires Valid() && IsEndpoint(realMethod)
      modifies this
      ensures Valid() && Contents() == Registered(old(Contents()), Slot(realMethod, tag))
    {
      var mangled := Mangle(realMethod[|METHOD_PREFIX|..]);
      var parts := Split(mangled, '_');
      var current := 0;
      ghost var before := Contents();
      assert parts[..0] == [] && parts[..|parts|] == parts && Grown(before, []) == before;
      assert parts == PathOf(realMethod);
      hide Mangled, Split, Grown, TreeOk, ContentsOf, WithNode;
      for i := 0 to |parts|
        invariant Valid() && parts[..i] in at && at[parts[..i]] == current
        invariant Contents() == Grown(before, parts[..i])
      {
        GrownOn(before, parts, i);
        current := Child(parts[..i], current, parts[i]);
      }
      SetEntry(parts, current, realMethod, tag);
    }

    /** Registers the endpoints among the slots, in their order, in a tree without other nodes. */
    method FillMethods(slots: seq<Slot>)
      requires Valid()
      modifies this
      ensures Valid() && Contents() == Filled(slots)
    {
      nodes, at, home := [nodes[0].(nodes := map[])], map[[] := 0], [[]];
      OnlyRootOk();
      assert View() == ONLY_ROOT;
      assert slots[..|slots|] == slots;
      hide TreeOk, ContentsOf, Registered;
      for i := 0 to |slots|
        invariant Valid() && Contents() == Filled(slots[..i])
      {
        assert slots[..i + 1][..i] == slots[..i];
        if IsEndpoint(slots[i].name) {
          AddMethodToTree(slots[i].name, slots[i].tag);
        }
      }
    }

    /** The node for a request: the deepest one along its lower-cased parts, if an endpoint is there;
        the parts beyond it are the variable ones. */
    method FindMethod(parts: seq<string>, decode: string -> string) returns (found: Option<Entry>, variable: seq<string>)
      requires Valid()
      ensures found == Answer(Contents(), parts)
      ensures found.Some? ==> variable == Decoded(parts[Depth(Contents(), Lowered(parts), 0)..], decode)
    {
      if |parts| < 2 {
        return None, [];
      }
      ghost var t, low := Contents(), Lowered(parts);
      hide Depth, Closed;
      var current := 0;
      var i := 0;
      while i < |parts|
        invariant i <= |parts| && low[..i] in at && at[low[..i]] == current
        invariant Depth(t, low, i) == Depth(t, low, 0)
      {
        var loweredPart := Lower(parts[i]);
        DepthStep(t, low, i);
        assert Linked(at, low[..i], nodes[current].nodes);
        if loweredPart !in nodes[current].nodes {
          break;
        }
        current := nodes[current].nodes[loweredPart];
        i := i + 1;
      }
      DepthEnd(t, low, i);
      if nodes[current].value != "" {
        return Some(EntryOf(nodes[current])), Decoded(parts[i..], decode);
      }
      return None, [];
    }
  }

  // ---- What the tree of all slots answers ----

  /** `q` is a prefix of the path of one of the endpoints. */
  ghost predicate Reaches(slots: seq<Slot>, q: Path) {
    exists i :: 0 <= i < |slots| && IsEndpoint(slots[i].name) && q <= PathOf(slots[i].name)
  }

  /** The last endpoint registered at exactly `q`. */
  function LastAt(slots: seq<Slot>, q: Path): Option<Slot> {
    if slots == [] then None
    else
      var n := |slots| - 1;
      if IsEndpoint(slots[n].name) && PathOf(slots[n].name) == q then Some(slots[n]) else LastAt(slots[..n], q)
  }

  lemma {:induction false} GrownAt(t: Table, p: Path, q: Path)
    ensures q in Grown(t, p) <==> q in t || (q <= p && q != [])
    ensures q in Grown(t, p) ==> Grown(t, p)[q] == if q in t then t[q] else NOTHING
  {
    if p != [] {
      var n := |p| - 1;
      GrownAt(t, p[..n], q);
      if q <= p && q != p {
        assert q <= p[..n];
      }
    }
  }

  lemma ReachesShorter(slots: seq<Slot>, r: Path, q: Path)
    requires r <= q
    ensures Reaches(slots, q) ==> Reaches(slots, r)
  {
    hide PathOf;
  }

  lemma ReachesMore(slots: seq<Slot>, q: Path)
    requires slots != []
    ensures var n := |slots| - 1;
            Reaches(slots, q) <==>
              Reaches(slots[..n], q) || (IsEndpoint(slots[n].name) && q <= PathOf(slots[n].name))
  {
    var n := |slots| - 1;
    hide PathOf, IsEndpoint;
    if Reaches(slots[..n], q) {
      var i :| 0 <= i < n && IsEndpoint(slots[..n][i].name) && q <= PathOf(slots[..n][i].name);
      assert slots[i] == slots[..n][i];
    }
    if Reaches(slots, q) {
      var i :| 0 <= i < |slots| && IsEndpoint(slots[i].name) && q <= PathOf(slots[i].name);
      assert i < n ==> slots[i] == slots[..n][i];
    }
  }

  lemma RegisteredAt(t: Table, slot: Slot, q: Path)
    requires IsEndpoint(slot.name)
    ensures var r, p := Registered(t, slot), PathOf(slot.name);
            && (q in r <==> q in t || (q <= p && q != []))
            && (q in r ==> r[q] == if q == p then Entry(slot.name, slot.tag) else if q in t then t[q] else NOTHING)
  {
    GrownAt(t, PathOf(slot.name), q);
    hide Grown, PathOf, IsEndpoint;
  }

  function EntryFor(slot: Option<Slot>): Entry {
    if slot.None? then NOTHING else Entry(slot.value.name, slot.value.tag)
  }

  lemma EntryOfSome(slot: Slot)
    ensures EntryFor(Some(slot)) == Entry(slot.name, slot.tag)
  {
  }

  lemma {:induction false} FilledAt(slots: seq<Slot>, q: Path)
    ensures q in Filled(slots) <==> q == [] || Reaches(slots, q)
    ensures q in Filled(slots) ==> Filled(slots)[q] == EntryFor(LastAt(slots, q))
  {
    if slots == [] {
      assert !Reaches(slots, q);
    } else {
      var n := |slots| - 1;
      FilledAt(slots[..n], q);
      ReachesMore(slots, q);
      NoneBeyond(slots[..n], q);
      if IsEndpoint(slots[n].name) {
        RegisteredAt(Filled(slots[..n]), slots[n], q);
      }
      hide Registered, PathOf, IsEndpoint, Reaches;
    }
  }

  /** No endpoint is registered where no path reaches. */
  lemma NoneBeyond(slots: seq<Slot>, q: Path)
    ensures !Reaches(slots, q) ==> LastAt(slots, q).None?
  {
    LastAtIsEndpoint(slots, q);
  }

  lemma {:induction false} LastAtIsEndpoint(slots: seq<Slot>, q: Path)
    ensures LastAt(slots, q).Some? ==>
              LastAt(slots, q).value in slots && IsEndpoint(LastAt(slots, q).value.name)
              && PathOf(LastAt(slots, q).value.name) == q
  {
    if slots != [] {
      LastAtIsEndpoint(slots[..|slots| - 1], q);
      hide PathOf, IsEndpoint;
    }
  }

  /** A request is answered by the last endpoint registered at exactly the longest of its lower-cased
      prefixes that is a prefix of some registered path, and by nothing if there is none. */
  lemma LongestPrefixAnswers(slots: seq<Slot>, parts: seq<string>)
    requires |parts| >= 2
    ensures var low := Lowered(parts);
            var d := Depth(Filled(slots), low, 0);
            && (d > 0 ==> Reaches(slots, low[..d]))
            && (forall k :: d < k <= |low| ==> !Reaches(slots, low[..k]))
            && Answer(Filled(slots), parts) ==
               (if LastAt(slots, low[..d]).None? then None else Some(EntryFor(LastAt(slots, low[..d]))))
  {
    var low := Lowered(parts);
    var d := Depth(Filled(slots), low, 0);
    FilledAt(slots, low[..d]);
    LastAtIsEndpoint(slots, low[..d]);
    forall k | d < k <= |low| ensures !Reaches(slots, low[..k]) {
      FilledAt(slots, low[..d + 1]);
      ReachesShorter(slots, low[..d + 1], low[..k]);
    }
  }

  lemma {:induction false} LastAtOwnPath(slots: seq<Slot>, i: nat)
    requires i < |slots| && IsEndpoint(slots[i].name)
    requires forall j :: i < j < |slots| && IsEndpoint(slots[j].name) ==> PathOf(slots[j].name) != PathOf(slots[i].name)
    ensures LastAt(slots, PathOf(slots[i].name)) == Some(slots[i])
  {
    hide PathOf, IsEndpoint;
    if i < |slots| - 1 {
      LastAtOwnPath(slots[..|slots| - 1], i);
    }
  }

  /** Slots of different names, the endpoints among them well named. */
  predicate WellNamedSlots(slots: seq<Slot>) {
    && (forall j :: 0 <= j < |slots| && IsEndpoint(slots[j].name) ==> WellNamed(slots[j].name[|METHOD_PREFIX|..]))
    && (forall j, k :: 0 <= j < k < |slots| ==> slots[j].name != slots[k].name)
  }

  lemma OwnPaths(slots: seq<Slot>, i: nat, j: nat)
    requires WellNamedSlots(slots) && i < j < |slots| && IsEndpoint(slots[i].name) && IsEndpoint(slots[j].name)
    ensures PathOf(slots[j].name) != PathOf(slots[i].name)
  {
    PathsAreDistinct(slots[j].name, slots[i].name);
  }

  lemma OwnEntry(slots: seq<Slot>, i: nat)
    requires WellNamedSlots(slots) && i < |slots| && IsEndpoint(slots[i].name)
    ensures LastAt(slots, PathOf(slots[i].name)) == Some(slots[i]) && Reaches(slots, PathOf(slots[i].name))
  {
    hide WellNamedSlots, PathOf, IsEndpoint, LastAt;
    forall j | i < j < |slots| && IsEndpoint(slots[j].name) ensures PathOf(slots[j].name) != PathOf(slots[i].name) {
      OwnPaths(slots, i, j);
    }
    LastAtOwnPath(slots, i);
  }

  lemma DepthOfReached(slots: seq<Slot>, parts: seq<string>)
    requires |parts| >= 2 && Reaches(slots, Lowered(parts))
    ensures Depth(Filled(slots), Lowered(parts), 0) == |parts| && Lowered(parts)[..|parts|] == Lowered(parts)
  {
    var low := Lowered(parts);
    hide *;
    assert low[..|low|] == low;
    LongestPrefixAnswers(slots, parts);
  }

  /** Each of the well-named endpoints is found at its own path, in any case of its letters. */
  lemma EveryEndpointIsFound(slots: seq<Slot>, i: nat, parts: seq<string>)
    requires WellNamedSlots(slots) && i < |slots| && IsEndpoint(slots[i].name)
    requires |parts| >= 2 && Lowered(parts) == PathOf(slots[i].name)
    ensures Answer(Filled(slots), parts) == Some(Entry(slots[i].name, slots[i].tag))
    ensures Depth(Filled(slots), Lowered(parts), 0) == |parts|
  {
    hide *;
    OwnEntry(slots, i);
    DepthOfReached(slots, parts);
    LongestPrefixAnswers(slots, parts);
    EntryOfSome(slots[i]);
  }

  // ---- From the request line to the parts ----

  /** The parts of a request path below the path prefix, after the request type; none if the path is
      outside the prefix. */
  function MakeMethodName(prefix: seq<string>, kind: string, name: string): seq<string> {
    var parts := NonEmpty(Split(name, '/'));
    if |parts| >= |prefix| && Lowered(parts[..|prefix|]) == prefix then [Lower(kind)] + parts[|prefix|..] else []
  }

  lemma NoParts()
    ensures "/" + Join([], '/') == "/" && NonEmpty(Split("/", '/')) == []
  {
    assert Split("", '/') == [""];
    SplitPiece("", '/', "");
    assert "" + (['/'] + "") == "/";
    assert NonEmpty([""]) == [];
    NonEmptyCons("", [""]);
  }

  lemma PartsOfPath(parts: seq<string>)
    requires forall i :: 0 <= i < |parts| ==> parts[i] != "" && '/' !in parts[i]
    ensures NonEmpty(Split("/" + Join(parts, '/'), '/')) == parts
  {
    if parts == [] {
      NoParts();
      hide *;
      return;
    }
    SplitJoin(parts, '/');
    SplitPiece("", '/', Join(parts, '/'));
    assert "" + (['/'] + Join(parts, '/')) == "/" + Join(parts, '/');
    hide Split, Join, NonEmpty;
    NonEmptyCons("", parts);
    assert [] + NonEmpty(parts) == NonEmpty(parts);
  }

  /** The parts are those of the path prefix, in any case of their letters, and `below`. */
  ghost predicate UnderPrefix(prefix: seq<string>, parts: seq<string>, below: seq<string>) {
    exists above :: parts == above + below && Lowered(above) == prefix
  }

  lemma CutBehind(above: seq<string>, below: seq<string>)
    ensures (above + below)[..|above|] == above && (above + below)[|above|..] == below
  {
  }

  lemma SplitAtPrefix(prefix: seq<string>, parts: seq<string>, below: seq<string>)
    ensures UnderPrefix(prefix, parts, below) <==>
              |parts| >= |prefix| && Lowered(parts[..|prefix|]) == prefix && below == parts[|prefix|..]
  {
    hide Lowered;
    if UnderPrefix(prefix, parts, below) {
      var above :| parts == above + below && Lowered(above) == prefix;
      CutBehind(above, below);
    } else if |parts| >= |prefix| && below == parts[|prefix|..] {
      assert parts == parts[..|prefix|] + below;
    }
  }

  /** A path below the prefix, in any case of its letters, gives the request type and the parts below
      it, and no other path gives these; a path outside the prefix gives nothing and has no answer. */
  lemma PathUnderPrefix(prefix: seq<string>, kind: string, parts: seq<string>, t: Table)
    requires [] in t && forall i :: 0 <= i < |parts| ==> parts[i] != "" && '/' !in parts[i]
    ensures var r := MakeMethodName(prefix, kind, "/" + Join(parts, '/'));
            && (forall below :: r == [Lower(kind)] + below <==> UnderPrefix(prefix, parts, below))
            && ((forall below :: !UnderPrefix(prefix, parts, below)) <==> r == [])
            && (r == [] ==> Answer(t, r) == None)
  {
    PartsOfPath(parts);
    var r := MakeMethodName(prefix, kind, "/" + Join(parts, '/'));
    hide Split, Join, NonEmpty, Lower, Lowered, UnderPrefix;
    forall below ensures r == [Lower(kind)] + below <==> UnderPrefix(prefix, parts, below) {
      SplitAtPrefix(prefix, parts, below);
      if r == [Lower(kind)] + below {
        assert r[1..] == below;
      }
    }
    SplitAtPrefix(prefix, parts, if |parts| >= |prefix| then parts[|prefix|..] else []);
  }
}
