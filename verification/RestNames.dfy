/** How the name of a slot becomes the path of its endpoint. */
module RestNames {
  import opened Text

  /** Slots whose names start with this are endpoints. */
  const METHOD_PREFIX := "rest_"

  /** `i` is where a segment of the name starts. */
  predicate Initial(s: string, i: nat)
    requires i < |s|
  {
    i == 0 || s[i - 1] == '_'
  }

  /** What character `i` of a name turns into: an upper-case letter becomes lower-case, with a '-'
      before it unless it starts a segment. */
  function MangledChar(s: string, i: nat): string
    requires i < |s|
  {
    if !IsUpper(s[i]) then [s[i]]
    else if Initial(s, i) then [LowerChar(s[i])]
    else ['-', LowerChar(s[i])]
  }

  function Mangled(s: string): (t: string)
    ensures |s| <= |t|
    ensures s != "" ==> t != "" && t[|t| - 1] == LowerChar(s[|s| - 1])
  {
    if s == "" then "" else Mangled(s[..|s| - 1]) + MangledChar(s, |s| - 1)
  }

  /** One character more: a capital letter becomes small, with a '-' before it unless it starts the name or
      follows a '_'. */
  lemma MangledCapital(s: string, i: nat)
    requires i < 26
    ensures Mangled(s + [Capital(i)]) ==
            Mangled(s) + (if s == "" || s[|s| - 1] == '_' then [Small(i)] else ['-', Small(i)])
  {
    hide *;
    LetterCase(i);
    CapitalTurns(s, Capital(i), Small(i));
  }

  lemma CapitalTurns(s: string, c: char, small: char)
    requires LowerChar(c) == small != c
    ensures Mangled(s + [c]) == Mangled(s) + (if s == "" || s[|s| - 1] == '_' then [small] else ['-', small])
  {
    MangledLast(s, c);
    CharMangled(s, c);
    CapitalIsUpper(c);
    hide Mangled, MangledChar;
  }

  /** Any other character stays. */
  lemma MangledOther(s: string, c: char)
    requires forall i :: 0 <= i < 26 ==> c != Capital(i)
    ensures Mangled(s + [c]) == Mangled(s) + [c]
  {
    MangledLast(s, c);
    CharMangled(s, c);
    OnlyLettersChange(c);
    CapitalIsUpper(c);
    hide Mangled, MangledChar, LowerChar, IsUpper, Capital;
  }

  lemma MangledLast(s: string, c: char)
    ensures Mangled(s + [c]) == Mangled(s) + MangledChar(s + [c], |s|)
  {
    assert (s + [c])[..|s|] == s;
  }

  lemma CharMangled(s: string, c: char)
    ensures MangledChar(s + [c], |s|) ==
            if !IsUpper(c) then [c] else if s == "" || s[|s| - 1] == '_' then [LowerChar(c)] else ['-', LowerChar(c)]
  {
    assert s != "" ==> (s + [c])[|s| - 1] == s[|s| - 1];
  }

  lemma CapitalIsUpper(c: char)
    ensures IsUpper(c) <==> LowerChar(c) != c
  {
  }

  lemma Case(c: char)
    ensures IsUpper(c) ==> UpperChar(LowerChar(c)) == c
    ensures !IsUpper(c) ==> LowerChar(c) == c
    ensures !IsUpper(LowerChar(c)) && LowerChar(LowerChar(c)) == LowerChar(c)
    ensures LowerChar(c) == '_' <==> c == '_'
    ensures LowerChar(c) == '-' <==> c == '-'
  {
  }

  /** Replacing the first character of `rest`, and inserting in front of it. */
  lemma Patch(before: string, rest: string, c: char)
    requires rest != ""
    ensures before + rest == before + [rest[0]] + rest[1..]
    ensures (before + rest)[|before| := c] == before + [c] + rest[1..]
  {
  }

  lemma Insert(before: string, rest: string, c: char)
    requires rest != ""
    ensures var n := (before + rest)[|before| := c];
            n[..|before|] + ['-'] + n[|before|..] == before + ['-', c] + rest[1..]
  {
    var n := (before + rest)[|before| := c];
    assert n[..|before|] == before && n[|before|..] == [c] + rest[1..];
  }

  /** The first `k` characters are done, and `i` is where the next one is. */
  predicate Scanned(name: string, k: nat, m: string, i: nat) {
    k <= |name| && m == Mangled(name[..k]) + name[k..] && i == |Mangled(name[..k])|
  }

  lemma ScanStart(name: string)
    ensures Scanned(name, 0, name, 0)
  {
    assert name[..0] == "" && name[0..] == name && "" + name == name;
  }

  lemma ScanEnd(name: string, k: nat, m: string, i: nat)
    requires Scanned(name, k, m, i) && i >= |m|
    ensures m == Mangled(name)
  {
    assert name[..|name|] == name;
    hide Mangled;
  }

  lemma ScanOne(name: string, k: nat, m: string, i: nat)
    requires Scanned(name, k, m, i) && i < |m|
    ensures k < |name|
    ensures !IsUpper(m[i]) ==> Scanned(name, k + 1, m, i + 1)
    ensures var n := m[i := LowerChar(m[i])];
            IsUpper(m[i]) ==>
              if i > 0 && m[i - 1] != '_' then Scanned(name, k + 1, n[..i] + ['-'] + n[i..], i + 2)
              else Scanned(name, k + 1, n, i + 1)
  {
    var before, rest, c := Mangled(name[..k]), name[k..], LowerChar(name[k]);
    MangledPrefix(name, k);
    assert rest[1..] == name[k + 1..] && rest[0] == name[k];
    hide Mangled, Initial, IsUpper, LowerChar;
    Patch(before, rest, c);
    Insert(before, rest, c);
    assert m[i] == rest[0];
  }

  /** The loop over a name that inserts into it while scanning it. */
  method Mangle(name: string) returns (m: string)
    ensures m == Mangled(name)
  {
    hide Scanned, Mangled, IsUpper, LowerChar;
    m := name;
    var i := 0;
    ghost var k := 0;
    ScanStart(name);
    while i < |m|
      invariant Scanned(name, k, m, i)
      decreases |name| - k
    {
      ScanOne(name, k, m, i);
      if IsUpper(m[i]) {
        m := m[i := LowerChar(m[i])];
        if i > 0 && m[i - 1] != '_' {
          m := m[..i] + ['-'] + m[i..];
          i := i + 1;
        }
      }
      i := i + 1;
      k := k + 1;
    }
    ScanEnd(name, k, m, i);
  }

  lemma MangledPrefix(s: string, k: nat)
    requires k < |s|
    ensures Mangled(s[..k + 1]) == Mangled(s[..k]) + MangledChar(s, k)
    ensures Initial(s, k) <==> Mangled(s[..k]) == "" || Mangled(s[..k])[|Mangled(s[..k])| - 1] == '_'
  {
    assert s[..k + 1][..k] == s[..k];
    if k > 0 {
      assert s[..k][|s[..k]| - 1] == s[k - 1];
    }
  }

  // ---- Which names collide ----

  /** The name with the first letter of every segment in lower case. */
  function Normal(s: string): (r: string)
    ensures |r| == |s|
  {
    if s == "" then ""
    else
      var n := |s| - 1;
      Normal(s[..n]) + [if Initial(s, n) then LowerChar(s[n]) else s[n]]
  }

  lemma {:induction false} NormalAt(s: string, i: nat)
    requires i < |s|
    ensures Normal(s)[i] == if Initial(s, i) then LowerChar(s[i]) else s[i]
  {
    var n := |s| - 1;
    if i < n {
      NormalAt(s[..n], i);
    }
    hide LowerChar;
  }

  /** Reads a path back: a '-' announces an upper-case letter. */
  function Unmangled(t: string): string {
    if t == "" then ""
    else
      var n := |t| - 1;
      if n > 0 && t[n - 1] == '-' then Unmangled(t[..n - 1]) + [UpperChar(t[n])]
      else Unmangled(t[..n]) + [t[n]]
  }

  lemma UnmangleLast(before: string, c: char)
    requires before == "" || before[|before| - 1] != '-'
    ensures Unmangled(before + [c]) == Unmangled(before) + [c]
    ensures before != "" ==> Unmangled(before + ['-', c]) == Unmangled(before) + [UpperChar(c)]
  {
    hide UpperChar;
    var t, u := before + [c], before + ['-', c];
    assert t[..|before|] == before && u[..|before|] == before;
  }

  lemma {:induction false} UnmangleMangled(s: string)
    requires '-' !in s
    ensures Unmangled(Mangled(s)) == Normal(s)
  {
    if s != "" {
      var n := |s| - 1;
      var before := Mangled(s[..n]);
      UnmangleMangled(s[..n]);
      Case(s[n]);
      if n > 0 {
        Case(s[n - 1]);
        assert before[|before| - 1] == LowerChar(s[..n][|s[..n]| - 1]);
      }
      UnmangleLast(before, s[n]);
      UnmangleLast(before, LowerChar(s[n]));
      hide Unmangled, IsUpper, LowerChar, UpperChar;
    }
  }

  lemma {:induction false} MangledNormal(s: string)
    ensures Mangled(Normal(s)) == Mangled(s)
  {
    if s != "" {
      var n := |s| - 1;
      assert Normal(s)[..n] == Normal(s[..n]);
      MangledNormal(s[..n]);
      Case(s[n]);
      if n > 0 {
        Case(s[n - 1]);
        NormalAt(s, n - 1);
      }
      hide IsUpper, LowerChar;
      assert MangledChar(Normal(s), n) == MangledChar(s, n);
    }
  }

  /** Two names without '-' get the same path exactly when they differ at most in the case of the
      letters that start their segments. */
  lemma CollideIffSameNormal(a: string, b: string)
    requires '-' !in a && '-' !in b
    ensures Mangled(a) == Mangled(b) <==> Normal(a) == Normal(b)
  {
    UnmangleMangled(a);
    UnmangleMangled(b);
    MangledNormal(a);
    MangledNormal(b);
  }

  /** The case of a letter that starts a segment is lost in the path. */
  lemma InitialCaseIsLost(before: string, c: char, after: string)
    requires before == "" || before[|before| - 1] == '_'
    requires '-' !in before + [c] + after
    ensures Mangled(before + [c] + after) == Mangled(before + [LowerChar(c)] + after)
  {
    var a, b := before + [c] + after, before + [LowerChar(c)] + after;
    Case(c);
    forall i | 0 <= i < |a| ensures Normal(a)[i] == Normal(b)[i] && b[i] != '-' {
      assert a[i] != '-';
      NormalAt(a, i);
      NormalAt(b, i);
    }
    hide Normal, Mangled;
    assert Normal(a) == Normal(b);
    CollideIffSameNormal(a, b);
  }

  /** An endpoint name as they are written: a lower-case scheme, then segments that start with an
      upper-case letter, and no '-'. */
  predicate WellNamed(s: string) {
    && '-' !in s
    && (s != "" ==> !IsUpper(s[0]))
    && (forall i :: 0 < i < |s| && s[i - 1] == '_' ==> IsUpper(s[i]))
  }

  lemma WellNamedDoNotCollide(a: string, b: string)
    requires WellNamed(a) && WellNamed(b) && Mangled(a) == Mangled(b)
    ensures a == b
  {
    CollideIffSameNormal(a, b);
    forall i | 0 <= i < |a| ensures a[i] == b[i] {
      SameAt(a, b, i);
    }
  }

  lemma {:induction false} SameAt(a: string, b: string, i: nat)
    requires WellNamed(a) && WellNamed(b) && Normal(a) == Normal(b) && i < |a|
    ensures a[i] == b[i]
  {
    NormalAt(a, i);
    NormalAt(b, i);
    hide Normal;
    if i > 0 {
      SameAt(a, b, i - 1);
    }
    if Initial(a, i) {
      SameCase(a[i], b[i]);
    }
  }

  lemma SameCase(c: char, d: char)
    requires LowerChar(c) == LowerChar(d) && IsUpper(c) == IsUpper(d)
    ensures c == d
  {
    if IsUpper(c) {
      assert UpperChar(LowerChar(c)) == c && UpperChar(LowerChar(d)) == d;
    }
  }

  // ---- Paths ----

  type Path = seq<string>

  predicate IsEndpoint(slot: string) { METHOD_PREFIX <= slot }

  /** The path an endpoint is registered at. */
  function PathOf(slot: string): (p: Path)
    requires IsEndpoint(slot)
    ensures p != []
  {
    Split(Mangled(slot[|METHOD_PREFIX|..]), '_')
  }

  lemma EndpointPath(name: string)
    ensures IsEndpoint("rest_" + name) && PathOf("rest_" + name) == Split(Mangled(name), '_')
  {
    assert |METHOD_PREFIX| == 5 && ("rest_" + name)[5..] == name;
  }

  /** Two endpoints that are not well named and share their path. */
  lemma SharedPath() returns (a: string, b: string)
    ensures a == "rest_A" && b == "rest_a" && IsEndpoint(a) && IsEndpoint(b) && PathOf(a) == PathOf(b)
  {
    assert LowerChar('A') == 'a';
    var capital, small := "" + ['A'] + "", "" + ['a'] + "";
    a, b := "rest_" + capital, "rest_" + small;
    hide *;
    EndpointPath(capital);
    EndpointPath(small);
    InitialCaseIsLost("", 'A', "");
  }

  /** Well-named endpoints have paths of their own. */
  lemma PathsAreDistinct(a: string, b: string)
    requires IsEndpoint(a) && IsEndpoint(b) && a != b
    requires WellNamed(a[|METHOD_PREFIX|..]) && WellNamed(b[|METHOD_PREFIX|..])
    ensures PathOf(a) != PathOf(b)
  {
    var n := |METHOD_PREFIX|;
    if PathOf(a) == PathOf(b) {
      JoinSplit(Mangled(a[n..]), '_');
      JoinSplit(Mangled(b[n..]), '_');
      WellNamedDoNotCollide(a[n..], b[n..]);
      Cut(a, n);
      Cut(b, n);
      assert false;
    }
  }
}
