/** Writing one value into a settings file that has groups open, and leaving these groups open. */
module GroupStack {
  import opened Text

  /** A settings value; None is a null one, which removes the key. */
  type Value = Option<string>

  type Data = map<string, string>

  // ---- Keys ----

  /** A key without slashes at its ends or twice in a row. */
  function Normalized(key: string): string { Join(NonEmpty(Split(key, '/')), '/') }

  lemma {:induction false} NonEmptyHas(parts: seq<string>)
    ensures forall i :: 0 <= i < |NonEmpty(parts)| ==> NonEmpty(parts)[i] != "" && NonEmpty(parts)[i] in parts
  {
    if parts != [] {
      NonEmptyHas(parts[..|parts| - 1]);
    }
  }

  lemma NormalizedOnce(key: string)
    ensures Normalized(Normalized(key)) == Normalized(key)
  {
    var parts := NonEmpty(Split(key, '/'));
    NonEmptyHas(Split(key, '/'));
    if parts == [] {
      assert Split("", '/') == [""] && NonEmpty([""]) == NonEmpty([]) == [];
    } else {
      SplitJoin(parts, '/');
    }
  }

  predicate Normal(names: seq<string>) { forall i :: 0 <= i < |names| ==> Normalized(names[i]) == names[i] }

  /** What is put in front of the keys of a group: the names of the open groups, empty ones left out. */
  function Prefix(names: seq<string>): (p: string)
    ensures p == "" || (|p| >= 2 && p[|p| - 1] == '/')
  {
    if names == [] then ""
    else
      var n := |names| - 1;
      if names[n] == "" then Prefix(names[..n]) else Prefix(names[..n]) + names[n] + "/"
  }

  lemma PrefixPush(names: seq<string>, name: string)
    ensures Prefix(names + [name]) == if name == "" then Prefix(names) else Prefix(names) + name + "/"
  {
    assert (names + [name])[..|names|] == names;
  }

  lemma PrefixPop(names: seq<string>)
    requires names != []
    ensures var n := |names| - 1;
            var p := Prefix(names);
            if names[n] == "" then Prefix(names[..n]) == p
            else |names[n]| + 1 <= |p| && Prefix(names[..n]) == p[..|p| - (|names[n]| + 1)]
  {
    var n := |names| - 1;
    if names[n] != "" {
      Cut(Prefix(names), |Prefix(names)| - (|names[n]| + 1));
      assert Prefix(names)[..|Prefix(names[..n])|] == Prefix(names[..n]);
    }
  }

  /** The path of the open groups. */
  function PathOf(names: seq<string>): string {
    var p := Prefix(names);
    if p == "" then "" else p[..|p| - 1]
  }

  function AllNormalized(names: seq<string>): (r: seq<string>)
    ensures |r| == |names|
  {
    seq(|names|, i requires 0 <= i < |names| => Normalized(names[i]))
  }

  // ---- What is in the file ----

  /** The key itself, or one below it. */
  predicate AtOrBelow(k: string, key: string) { k == key || (key + "/" <= k) }

  function Without(data: Data, key: string): Data {
    if key == "" then map[] else map k | k in data && !AtOrBelow(k, key) :: data[k]
  }

  /** setValue(), under a prefix: an empty key is refused. */
  function WithValue(data: Data, prefix: string, key: string, value: string): Data {
    if key == "" then data else data[prefix + Normalized(key) := value]
  }

  /** remove(), under a prefix: an empty key stands for the group. */
  function WithoutKey(data: Data, prefix: string, key: string): Data {
    if Normalized(key) == "" then Without(data, if prefix == "" then "" else prefix[..|prefix| - 1])
    else Without(data, prefix + Normalized(key))
  }

  class SettingsFile {
    var groupStack: seq<string>
    var groupPrefix: string
    var data: Data

    ghost predicate Valid()
      reads this
    {
      Normal(groupStack) && groupPrefix == Prefix(groupStack)
    }

    constructor ()
      ensures Valid() && groupStack == [] && data == map[]
    {
      groupStack, groupPrefix, data := [], "", map[];
    }

    function Group(): (path: string)
      requires Valid()
      reads this
      ensures path == PathOf(groupStack)
    {
      if groupPrefix == "" then "" else groupPrefix[..|groupPrefix| - 1]
    }

    method BeginGroup(name: string)
      requires Valid()
      modifies this`groupStack, this`groupPrefix
      ensures Valid() && groupStack == old(groupStack) + [Normalized(name)]
    {
      var group := Normalized(name);
      NormalizedOnce(name);
      PrefixPush(groupStack, group);
      hide Normalized, Prefix;
      groupStack := groupStack + [group];
      if group != "" {
        groupPrefix := groupPrefix + group;
        groupPrefix := groupPrefix + "/";
      }
    }

    method EndGroup()
      requires Valid() && groupStack != []
      modifies this`groupStack, this`groupPrefix
      ensures Valid() && groupStack == old(groupStack)[..|old(groupStack)| - 1]
    {
      var group := groupStack[|groupStack| - 1];
      PrefixPop(groupStack);
      hide Normalized, Prefix;
      groupStack := groupStack[..|groupStack| - 1];
      if |group| > 0 {
        groupPrefix := groupPrefix[..|groupPrefix| - (|group| + 1)];
      }
    }

    method SetValue(key: string, value: string)
      requires Valid()
      modifies this`data
      ensures data == WithValue(old(data), groupPrefix, key, value)
    {
      if key == "" {
        return;
      }
      data := data[groupPrefix + Normalized(key) := value];
    }

    method Remove(key: string)
      requires Valid()
      modifies this`data
      ensures data == WithoutKey(old(data), groupPrefix, key)
    {
      hide Normalized, Without, Prefix, Normal;
      var theKey := Normalized(key);
      theKey := if theKey == "" then Group() else groupPrefix + theKey;
      data := Without(data, theKey);
    }
  }

  /** The name of the last group, from the path with it and the path without it. */
  lemma NameFromPaths(names: seq<string>)
    requires names != [] && PathOf(names) != ""
    ensures var n := |names| - 1;
            names[n] == LastName(PathOf(names), PathOf(names[..n]))
  {
    var n := |names| - 1;
    var before, name := Prefix(names[..n]), names[n];
    assert Prefix(names) == if name == "" then before else before + name + "/";
    hide Prefix;
    if name != "" {
      assert PathOf(names) == before + name;
      assert before != "" ==> (before + name)[|before|..] == name;
    }
  }

  /** mid(): what is behind a path and its slash; nothing if the path is that short. */
  function LastName(path: string, newPath: string): string {
    if newPath == "" then path else if |newPath| + 1 <= |path| then path[|newPath| + 1..] else ""
  }

  /** Closes groups until no path is left, and finds the names of those closed. */
  method Unwind(settings: SettingsFile) returns (groupsToRestore: seq<string>)
    requires settings.Valid()
    modifies settings`groupStack, settings`groupPrefix
    ensures settings.Valid() && PathOf(settings.groupStack) == ""
    ensures settings.groupStack + groupsToRestore == old(settings.groupStack)
  {
    var groupPathToRestore := settings.Group();
    groupsToRestore := [];
    while settings.Group() != ""
      invariant settings.Valid() && groupPathToRestore == PathOf(settings.groupStack)
      invariant settings.groupStack + groupsToRestore == old(settings.groupStack)
      decreases |settings.groupStack|
    {
      ghost var names := settings.groupStack;
      ghost var n := |names| - 1;
      NameFromPaths(names);
      hide Prefix, Normal, LastName;
      settings.EndGroup();
      var newPath := settings.Group();
      MoveOver(names, n, groupsToRestore);
      groupsToRestore := [LastName(groupPathToRestore, newPath)] + groupsToRestore;
      groupPathToRestore := newPath;
    }
  }

  lemma MoveOver(names: seq<string>, n: nat, rest: seq<string>)
    requires n < |names| && n == |names| - 1
    ensures names[..n] + ([names[n]] + rest) == names + rest
  {
  }

  /** Opens groups one in the other. */
  method Enter(settings: SettingsFile, names: seq<string>)
    requires settings.Valid()
    modifies settings`groupStack, settings`groupPrefix
    ensures settings.Valid() && settings.groupStack == old(settings.groupStack) + AllNormalized(names)
  {
    hide Normal, Prefix, Normalized;
    ghost var top := settings.groupStack;
    assert AllNormalized(names[..0]) == [] && names[..|names|] == names;
    for i := 0 to |names|
      invariant settings.Valid() && settings.groupStack == top + AllNormalized(names[..i])
    {
      EnterOne(top, names, i);
      settings.BeginGroup(names[i]);
    }
  }

  lemma EnterOne(top: seq<string>, names: seq<string>, i: nat)
    requires i < |names|
    ensures top + AllNormalized(names[..i]) + [Normalized(names[i])] == top + AllNormalized(names[..i + 1])
  {
    hide Normalized;
  }

  /** Closes a number of groups. */
  method Leave(settings: SettingsFile, n: nat)
    requires settings.Valid() && n <= |settings.groupStack|
    modifies settings`groupStack, settings`groupPrefix
    ensures settings.Valid() && settings.groupStack == old(settings.groupStack)[..|old(settings.groupStack)| - n]
  {
    hide Normal, Prefix;
    ghost var names := settings.groupStack;
    for i := 0 to n
      invariant settings.Valid() && settings.groupStack == names[..|names| - i]
    {
      settings.EndGroup();
    }
  }

  lemma {:induction false} PrefixBelowNothing(top: seq<string>, names: seq<string>)
    requires PathOf(top) == ""
    ensures Prefix(top + names) == Prefix(names)
  {
    if names == [] {
      assert top + names == top;
    } else {
      var n := |names| - 1;
      PrefixBelowNothing(top, names[..n]);
      assert (top + names)[..|top + names| - 1] == top + names[..n];
    }
  }

  /** What Normalized() leaves as it is, AllNormalized() does too. */
  lemma NormalSuffix(top: seq<string>, names: seq<string>)
    requires Normal(top + names)
    ensures AllNormalized(names) == names
  {
    forall i | 0 <= i < |names| ensures Normalized(names[i]) == names[i] {
      assert (top + names)[|top| + i] == names[i];
    }
    hide Normalized;
  }

  /** Closes the open groups, goes to the key from the top, writes, and opens the groups again, their
      names known only from how the path got shorter. */
  method GroupValueChanged(settings: SettingsFile, key: seq<string>, value: Value)
    requires settings.Valid() && key != []
    modifies settings
    ensures settings.Valid() && settings.groupStack == old(settings.groupStack)
    ensures var place := Prefix(AllNormalized(key[..|key| - 1]));
            settings.data == if value.None? then WithoutKey(old(settings.data), place, key[|key| - 1])
                             else WithValue(old(settings.data), place, key[|key| - 1], value.value)
  {
    var groups, last := key[..|key| - 1], key[|key| - 1];
    ghost var stack := settings.groupStack;
    var groupsToRestore := Unwind(settings);
    ghost var top := settings.groupStack;
    PrefixBelowNothing(top, AllNormalized(groups));
    NormalSuffix(top, groupsToRestore);
    hide Prefix, Normal, PathOf, WithoutKey, WithValue;
    Enter(settings, groups);
    if value.None? {
      settings.Remove(last);
    } else {
      settings.SetValue(last, value.value);
    }
    Leave(settings, |key| - 1);
    assert settings.groupStack == top;
    Enter(settings, groupsToRestore);
  }

  // ---- Where the value goes ----

  lemma {:induction false} JoinPush(names: seq<string>, last: string)
    ensures Join(names + [last], '/') == if names == [] then last else Join(names, '/') + "/" + last
  {
    if names == [] {
      assert names + [last] == [last];
    } else {
      assert (names + [last])[1..] == names[1..] + [last];
      JoinPush(names[1..], last);
      if |names| > 1 {
        Assoc(names[0] + "/", Join(names[1..], '/'), "/" + last);
        Assoc(Join(names[1..], '/'), "/", last);
        Assoc(names[0] + "/" + Join(names[1..], '/'), "/", last);
      }
    }
  }

  lemma {:induction false} PrefixIsJoin(names: seq<string>)
    requires names != [] && forall i :: 0 <= i < |names| ==> names[i] != ""
    ensures Prefix(names) == Join(names, '/') + "/"
  {
    var n := |names| - 1;
    assert names == names[..n] + [names[n]];
    JoinPush(names[..n], names[n]);
    if n > 0 {
      PrefixIsJoin(names[..n]);
    }
  }

  /** Group names that stay as they are. */
  predicate Plain(names: seq<string>) { Normal(names) && forall i :: 0 <= i < |names| ==> names[i] != "" }

  lemma PlainPrefix(groups: seq<string>)
    requires Plain(groups)
    ensures AllNormalized(groups) == groups
    ensures Prefix(groups) == if groups == [] then "" else Join(groups, '/') + "/"
  {
    if groups != [] {
      PrefixIsJoin(groups);
    }
    assert [] + groups == groups;
    NormalSuffix([], groups);
    hide Join, Normalized;
  }

  lemma PlaceIsJoin(groups: seq<string>, last: string)
    requires Plain(groups)
    ensures Prefix(AllNormalized(groups)) + last == Join(groups + [last], '/')
  {
    hide *;
    PlainPrefix(groups);
    JoinPush(groups, last);
    assert "" + last == last;
  }

  /** For names as they should be, the place is the names joined by slashes: this is where a value is
      stored, and this and all below it, and nothing else, is what removing the key removes. */
  lemma WritesAtJoinedKey(data: Data, groups: seq<string>, last: string, value: string)
    requires Plain(groups) && Normalized(last) == last != ""
    ensures var place, joined := Prefix(AllNormalized(groups)), Join(groups + [last], '/');
            && WithValue(data, place, last, value) == data[joined := value]
            && var left := WithoutKey(data, place, last);
               && (forall k :: k in left <==> k in data && k != joined && !(joined + "/" <= k))
               && (forall k :: k in left ==> left[k] == data[k])
  {
    PlaceIsJoin(groups, last);
    NotEmptyBehind(groups, last);
    hide Join, Normalized, Prefix, Plain, AllNormalized;
  }

  lemma NotEmptyBehind(groups: seq<string>, last: string)
    requires last != ""
    ensures Join(groups + [last], '/') != ""
  {
    JoinPush(groups, last);
  }

  /** A key that only begins like the removed one stays. */
  lemma SiblingStays(data: Data)
    requires "ab" in data
    ensures var left := WithoutKey(data, "", "a"); "ab" in left && left["ab"] == data["ab"] && "a" !in left && "a/b" !in left
  {
    TidyIsNormal("a");
    TopLevel("a");
    hide *;
    WritesAtJoinedKey(data, [], "a", "");
    assert ("a" + "/")[1] == '/' && "ab"[1] == 'b';
    assert "a/b"[..2] == "a" + "/";
  }

  lemma TopLevel(last: string)
    ensures Plain([]) && Prefix(AllNormalized([])) == "" && Join([] + [last], '/') == last
  {
    JoinOne(last, '/');
    assert [] + [last] == [last] && AllNormalized([]) == [];
    hide Join, Normalized;
  }

  // ---- Normal keys ----

  /** No slash at an end and no two in a row. */
  predicate Tidy(key: string) {
    key == "" || (key[0] != '/' && key[|key| - 1] != '/' && forall i :: 0 <= i < |key| - 1 ==> key[i] != '/' || key[i + 1] != '/')
  }

  lemma {:induction false} TidyPieces(s: string)
    requires Tidy(s) && s != ""
    ensures forall i :: 0 <= i < |Split(s, '/')| ==> Split(s, '/')[i] != ""
    decreases |s|
  {
    var i := IndexOf(s, '/');
    if i != -1 {
      assert s[i] == '/';
      assert s[i + 1..] != "" && Tidy(s[i + 1..]);
      TidyPieces(s[i + 1..]);
    }
  }

  lemma TidyIsNormal(key: string)
    requires Tidy(key)
    ensures Normalized(key) == key
  {
    if key == "" {
      NothingSplit();
      hide NonEmpty, Split;
    } else {
      TidyPieces(key);
      JoinSplit(key, '/');
    }
  }

  lemma TidyJoin(first: string, rest: string)
    requires first != "" && '/' !in first && rest != "" && Tidy(rest)
    ensures Tidy(first + "/" + rest)
  {
  }

  lemma {:induction false} JoinIsTidy(parts: seq<string>)
    requires forall i :: 0 <= i < |parts| ==> parts[i] != "" && '/' !in parts[i]
    ensures Tidy(Join(parts, '/')) && (parts != [] ==> Join(parts, '/') != "")
  {
    if |parts| == 1 {
      JoinOne(parts[0], '/');
      assert parts == [parts[0]];
    } else if |parts| > 1 {
      JoinIsTidy(parts[1..]);
      JoinCons(parts[0], parts[1..], '/');
      assert parts == [parts[0]] + parts[1..];
      TidyJoin(parts[0], Join(parts[1..], '/'));
    }
  }

  /** Exactly the keys without slashes at their ends or twice in a row stay as they are; every key becomes
      one of these, with the same names between its slashes. */
  lemma NormalIffTidy(key: string)
    ensures Normalized(key) == key <==> Tidy(key)
    ensures Tidy(Normalized(key)) && NonEmpty(Split(Normalized(key), '/')) == NonEmpty(Split(key, '/'))
  {
    NormalizedForm(key);
    hide *;
    if Tidy(key) {
      TidyIsNormal(key);
    }
  }

  lemma NormalizedForm(key: string)
    ensures Tidy(Normalized(key)) && NonEmpty(Split(Normalized(key), '/')) == NonEmpty(Split(key, '/'))
  {
    var parts := NonEmpty(Split(key, '/'));
    NonEmptyHas(Split(key, '/'));
    JoinIsTidy(parts);
    if parts == [] {
      NothingSplit();
      hide NonEmpty, Split, Tidy;
    } else {
      hide Tidy, Split, Join, NonEmpty;
      SplitJoin(parts, '/');
    }
  }

  lemma NothingSplit()
    ensures Join([], '/') == "" && NonEmpty(Split("", '/')) == []
  {
    assert Split("", '/') == [""] && NonEmpty([""]) == NonEmpty([]) == [];
  }
}
