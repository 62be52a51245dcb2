/** Migrations of the stored settings from one version to the next, run when the application starts. */
module Migrations {
  import opened PackedVersion
  import opened Text

  /** The two stored version texts, and everything else the settings hold. */
  datatype Settings = Settings(app: string, proof: string, rest: map<string, string>)

  /** A migration gets the two packed versions and changes the settings. */
  type Migration = (Packed, Packed, Settings) -> Settings

  /** The lists of migrations, each under the last version they relate to. */
  type Registry = map<Packed, seq<Migration>>

  datatype Versions = Versions(app: Packed, proof: Packed)

  function VersionsOf(s: Settings): Versions { Versions(PackText(Trim(s.app)), PackText(Trim(s.proof))) }

  function Minimum(v: Versions): Packed { if v.proof < v.app then v.proof else v.app }

  /** The migration at a position of the list for a version. */
  datatype Job = Job(key: Packed, index: nat)

  // ---- The order of the migrations ----

  /** The versions above `k` that have migrations. */
  ghost function KeysAbove(reg: Registry, k: Packed): set<Packed> {
    set j | j in reg && j > k && reg[j] != []
  }

  ghost predicate IsLeast(keys: set<Packed>, k: Packed) { k in keys && forall j :: j in keys ==> k <= j }

  lemma {:induction false} LeastExists(keys: set<Packed>)
    requires keys != {}
    ensures exists k :: IsLeast(keys, k)
    decreases |keys|
  {
    var k :| k in keys;
    if keys == {k} {
      assert IsLeast(keys, k);
    } else {
      assert keys - {k} != {};
      LeastExists(keys - {k});
      var l :| IsLeast(keys - {k}, l);
      assert forall j :: j in keys ==> j == k || j in keys - {k};
      assert IsLeast(keys, if k < l then k else l);
    }
  }

  ghost function Least(keys: set<Packed>): (k: Packed)
    requires keys != {}
    ensures IsLeast(keys, k)
  {
    LeastExists(keys);
    var k :| IsLeast(keys, k);
    k
  }

  ghost function JobsOf(key: Packed, n: nat): seq<Job> { seq(n, i requires 0 <= i < n => Job(key, i)) }

  /** All migrations above `k`, by ascending version and in the order they were added. */
  ghost function JobsAfter(reg: Registry, k: Packed): seq<Job>
    decreases WORD4 - k
  {
    var keys := KeysAbove(reg, k);
    if keys == {} then []
    else
      var l := Least(keys);
      JobsOf(l, |reg[l]|) + JobsAfter(reg, l)
  }

  predicate Earlier(a: Job, b: Job) { a.key < b.key || (a.key == b.key && a.index < b.index) }

  ghost predicate Ascending(jobs: seq<Job>) { forall i, j :: 0 <= i < j < |jobs| ==> Earlier(jobs[i], jobs[j]) }

  /** Nothing but the migrations above `k`, all of them, and each once. */
  lemma {:induction false} JobsAfterExact(reg: Registry, k: Packed)
    ensures forall j :: j in JobsAfter(reg, k) <==> j.key in reg && j.key > k && j.index < |reg[j.key]|
    ensures Ascending(JobsAfter(reg, k))
    decreases WORD4 - k
  {
    var keys := KeysAbove(reg, k);
    assert forall j: Job :: j.key in reg && j.key > k && j.index < |reg[j.key]| ==> j.key in keys;
    if keys != {} {
      var l := Least(keys);
      JobsAfterExact(reg, l);
      var first, rest := JobsOf(l, |reg[l]|), JobsAfter(reg, l);
      assert JobsAfter(reg, k) == first + rest;
      hide JobsAfter;
      forall j ensures j in first <==> j.key == l && j.index < |reg[l]| {
        if j.key == l && j.index < |reg[l]| {
          assert first[j.index] == j;
        }
      }
      forall j ensures j in first + rest <==> j.key in reg && j.key > k && j.index < |reg[j.key]| {
        assert j in first + rest <==> j in first || j in rest;
      }
      AscendingJoin(first, rest, l);
    }
  }

  lemma AscendingJoin(first: seq<Job>, rest: seq<Job>, l: Packed)
    requires Ascending(rest) && (forall j :: j in rest ==> j.key > l)
    requires forall i :: 0 <= i < |first| ==> first[i] == Job(l, i)
    ensures Ascending(first + rest)
  {
    var all := first + rest;
    forall i, j | 0 <= i < j < |all| ensures Earlier(all[i], all[j]) {
      if j >= |first| {
        assert all[j] == rest[j - |first|];
      }
    }
  }

  // ---- What the driver does ----

  /** The settings after some of a list of migrations, whether the versions changed, and which ran. */
  datatype Outcome = Outcome(settings: Settings, restart: bool, ran: seq<Job>)

  ghost predicate Registered(reg: Registry, jobs: seq<Job>) {
    forall j :: j in jobs ==> j.key in reg && j.index < |reg[j.key]|
  }

  lemma JobsRegistered(reg: Registry, k: Packed)
    ensures Registered(reg, JobsAfter(reg, k))
  {
    JobsAfterExact(reg, k);
    hide JobsAfter;
  }

  /** Runs migrations until one changes a stored version. */
  ghost function RunJobs(reg: Registry, jobs: seq<Job>, v: Versions, s: Settings): (o: Outcome)
    requires Registered(reg, jobs)
    ensures o.ran <= jobs
    decreases |jobs|
  {
    if jobs == [] then Outcome(s, false, [])
    else
      var j := jobs[0];
      assert Registered(reg, jobs[1..]);
      var s' := reg[j.key][j.index](v.app, v.proof, s);
      if VersionsOf(s') != v then Outcome(s', true, [j])
      else
        var o := RunJobs(reg, jobs[1..], v, s');
        o.(ran := [j] + o.ran)
  }

  /** A pass is cut short exactly when it changed the versions; else it ran all it should. */
  lemma {:induction false} RunJobsLeaves(reg: Registry, jobs: seq<Job>, v: Versions, s: Settings)
    requires Registered(reg, jobs) && VersionsOf(s) == v
    ensures var o := RunJobs(reg, jobs, v, s);
            (o.restart <==> VersionsOf(o.settings) != v) && o.ran <= jobs && (!o.restart ==> o.ran == jobs)
    decreases |jobs|
  {
    hide VersionsOf;
    if jobs != [] {
      var j := jobs[0];
      RunJobsCons(reg, jobs, v, s);
      assert Registered(reg, jobs[1..]);
      var s' := reg[j.key][j.index](v.app, v.proof, s);
      hide RunJobs;
      if VersionsOf(s') == v {
        RunJobsLeaves(reg, jobs[1..], v, s');
        assert jobs == [j] + jobs[1..];
      }
    }
  }

  /** A run through the migrations, with the versions they were given. */
  datatype Pass = Pass(versions: Versions, ran: seq<Job>)

  datatype Driven = Driven(settings: Settings, passes: seq<Pass>)

  ghost function FirstPass(reg: Registry, s: Settings): Outcome {
    var v := VersionsOf(s);
    JobsRegistered(reg, Minimum(v));
    RunJobs(reg, JobsAfter(reg, Minimum(v)), v, s)
  }

  lemma FirstPassIs(reg: Registry, s: Settings)
    ensures Registered(reg, JobsAfter(reg, Minimum(VersionsOf(s))))
    ensures FirstPass(reg, s) == RunJobs(reg, JobsAfter(reg, Minimum(VersionsOf(s))), VersionsOf(s), s)
  {
    hide VersionsOf, JobsAfter, RunJobs;
    JobsRegistered(reg, Minimum(VersionsOf(s)));
  }

  lemma FirstPassLeaves(reg: Registry, s: Settings)
    ensures var o := FirstPass(reg, s);
            var v := VersionsOf(s);
            && (o.restart <==> VersionsOf(o.settings) != v)
            && o.ran <= JobsAfter(reg, Minimum(v)) && (!o.restart ==> o.ran == JobsAfter(reg, Minimum(v)))
  {
    hide VersionsOf, JobsAfter, RunJobs, Registered, Minimum;
    FirstPassIs(reg, s);
    RunJobsLeaves(reg, JobsAfter(reg, Minimum(VersionsOf(s))), VersionsOf(s), s);
  }

  // ---- Pass after pass ----

  /** After at most `n` passes that change the versions comes one that does not. */
  ghost predicate Settles(reg: Registry, s: Settings, n: nat)
    decreases n
  {
    !FirstPass(reg, s).restart || (n > 0 && Settles(reg, FirstPass(reg, s).settings, n - 1))
  }

  /** The passes come to an end. */
  ghost predicate Ends(reg: Registry, s: Settings) { exists n: nat :: Settles(reg, s, n) }

  ghost function DriveIn(reg: Registry, s: Settings, n: nat): Driven
    requires Settles(reg, s, n)
    decreases n
  {
    hide FirstPass, VersionsOf;
    var o := FirstPass(reg, s);
    var pass := Pass(VersionsOf(s), o.ran);
    if !o.restart then Driven(o.settings, [pass])
    else
      var d := DriveIn(reg, o.settings, n - 1);
      d.(passes := [pass] + d.passes)
  }

  lemma {:induction false} SameDrive(reg: Registry, s: Settings, n: nat, m: nat)
    requires Settles(reg, s, n) && Settles(reg, s, m)
    ensures DriveIn(reg, s, n) == DriveIn(reg, s, m)
    decreases n
  {
    hide FirstPass, VersionsOf;
    if FirstPass(reg, s).restart {
      SameDrive(reg, FirstPass(reg, s).settings, n - 1, m - 1);
    }
  }

  /** Passes over the migrations, each with the versions the one before it left, until one changes
      neither. */
  ghost function Drive(reg: Registry, s: Settings): Driven
    requires Ends(reg, s)
  {
    var n: nat :| Settles(reg, s, n);
    DriveIn(reg, s, n)
  }

  lemma SomePasses(reg: Registry, s: Settings) returns (n: nat)
    requires Ends(reg, s)
    ensures Settles(reg, s, n)
  {
    n :| Settles(reg, s, n);
  }

  lemma DriveIs(reg: Registry, s: Settings, n: nat)
    requires Settles(reg, s, n)
    ensures Ends(reg, s) && Drive(reg, s) == DriveIn(reg, s, n)
  {
    hide Settles, DriveIn;
    forall m: nat | Settles(reg, s, m) ensures DriveIn(reg, s, m) == DriveIn(reg, s, n) {
      SameDrive(reg, s, m, n);
    }
  }

  lemma DriveStep(reg: Registry, s: Settings, n: nat)
    requires Settles(reg, s, n)
    ensures Ends(reg, s)
    ensures var o := FirstPass(reg, s);
            var pass := Pass(VersionsOf(s), o.ran);
            && (!o.restart ==> Drive(reg, s) == Driven(o.settings, [pass]))
            && (o.restart ==>
                  && n > 0 && Settles(reg, o.settings, n - 1) && Ends(reg, o.settings)
                  && Drive(reg, s) == Driven(Drive(reg, o.settings).settings, [pass] + Drive(reg, o.settings).passes))
  {
    hide FirstPass, Drive, VersionsOf, Ends;
    DriveIs(reg, s, n);
    if FirstPass(reg, s).restart {
      DriveIs(reg, FirstPass(reg, s).settings, n - 1);
    }
  }

  // ---- When the passes end ----

  /** The settings that pass number `m` starts from, or the last pass if there are not so many. */
  ghost function At(reg: Registry, s: Settings, m: nat): Settings
    decreases m
  {
    if m == 0 || !FirstPass(reg, s).restart then s else At(reg, FirstPass(reg, s).settings, m - 1)
  }

  predicate NotBelow(w: Versions, v: Versions) { w.app >= v.app && w.proof >= v.proof }

  /** The pass from these settings is cut short with a stored version lower than it was. */
  ghost predicate Lowers(reg: Registry, s: Settings) {
    FirstPass(reg, s).restart && !NotBelow(VersionsOf(FirstPass(reg, s).settings), VersionsOf(s))
  }

  /** From pass number `n` on no pass lowers a stored version. */
  ghost predicate LowersNoMore(reg: Registry, s: Settings, n: nat) {
    forall m: nat :: m >= n ==> !Lowers(reg, At(reg, s, m))
  }

  lemma {:induction false} SettledAt(reg: Registry, s: Settings, n: nat, m: nat)
    requires Settles(reg, s, n) && m >= n
    ensures !FirstPass(reg, At(reg, s, m)).restart
    decreases n
  {
    hide FirstPass;
    if FirstPass(reg, s).restart {
      SettledAt(reg, FirstPass(reg, s).settings, n - 1, m - 1);
    }
  }

  lemma {:induction false} AtLater(reg: Registry, s: Settings, n: nat, m: nat)
    ensures At(reg, At(reg, s, n), m) == At(reg, s, n + m)
    decreases n
  {
    hide FirstPass;
    if n > 0 && FirstPass(reg, s).restart {
      AtLater(reg, FirstPass(reg, s).settings, n - 1, m);
    }
  }

  lemma {:induction false} SettlesFrom(reg: Registry, s: Settings, n: nat, m: nat)
    requires Settles(reg, At(reg, s, n), m)
    ensures Settles(reg, s, n + m)
    decreases n
  {
    hide FirstPass;
    if n > 0 && FirstPass(reg, s).restart {
      SettlesFrom(reg, FirstPass(reg, s).settings, n - 1, m);
    }
  }

  /** What the versions can still rise. */
  function Room(v: Versions): nat { 2 * WORD4 - v.app - v.proof }

  lemma LessRoom(reg: Registry, s: Settings)
    requires FirstPass(reg, s).restart && !Lowers(reg, s)
    ensures Room(VersionsOf(FirstPass(reg, s).settings)) < Room(VersionsOf(s))
  {
    hide FirstPass, VersionsOf;
    FirstPassLeaves(reg, s);
  }

  lemma {:induction false} RisingSettles(reg: Registry, s: Settings, n: nat)
    requires LowersNoMore(reg, s, 0) && Room(VersionsOf(s)) <= n
    ensures Settles(reg, s, n)
    decreases n
  {
    hide FirstPass, Lowers, VersionsOf, Room;
    if FirstPass(reg, s).restart {
      var t := FirstPass(reg, s).settings;
      assert At(reg, s, 0) == s;
      LessRoom(reg, s);
      forall m: nat ensures !Lowers(reg, At(reg, t, m)) {
        assert At(reg, s, m + 1) == At(reg, t, m);
      }
      RisingSettles(reg, t, n - 1);
    }
  }

  /** The passes come to an end exactly if only finitely many of them lower a stored version. */
  lemma EndsIffFewLower(reg: Registry, s: Settings)
    ensures Ends(reg, s) <==> exists n: nat :: LowersNoMore(reg, s, n)
  {
    hide FirstPass, VersionsOf, Settles, At;
    if Ends(reg, s) {
      var n: nat :| Settles(reg, s, n);
      forall m: nat | m >= n ensures !Lowers(reg, At(reg, s, m)) {
        SettledAt(reg, s, n, m);
      }
      assert LowersNoMore(reg, s, n);
    }
    if n: nat :| LowersNoMore(reg, s, n) {
      var t := At(reg, s, n);
      forall m: nat ensures !Lowers(reg, At(reg, t, m)) {
        AtLater(reg, s, n, m);
      }
      RisingSettles(reg, t, Room(VersionsOf(t)));
      SettlesFrom(reg, s, n, Room(VersionsOf(t)));
    }
  }

  /** The migration lowers neither stored version. */
  ghost predicate Raises(m: Migration) {
    forall a, p, s :: NotBelow(VersionsOf(m(a, p, s)), VersionsOf(s))
  }

  ghost predicate RaiseAbove(reg: Registry, k: Packed) {
    forall j, i :: j in reg && j > k && 0 <= i < |reg[j]| ==> Raises(reg[j][i])
  }

  ghost predicate RaisingJobs(reg: Registry, jobs: seq<Job>) {
    Registered(reg, jobs) && forall j :: j in jobs ==> Raises(reg[j.key][j.index])
  }

  lemma {:induction false} RunJobsRaises(reg: Registry, jobs: seq<Job>, v: Versions, s: Settings)
    requires RaisingJobs(reg, jobs)
    ensures NotBelow(VersionsOf(RunJobs(reg, jobs, v, s).settings), VersionsOf(s))
    decreases |jobs|
  {
    hide VersionsOf;
    if jobs != [] {
      var j := jobs[0];
      assert RaisingJobs(reg, jobs[1..]);
      assert Raises(reg[j.key][j.index]);
      RunJobsRaises(reg, jobs[1..], v, reg[j.key][j.index](v.app, v.proof, s));
    }
  }

  lemma FirstPassRaises(reg: Registry, s: Settings, k: Packed)
    requires RaiseAbove(reg, k) && Minimum(VersionsOf(s)) >= k
    ensures NotBelow(VersionsOf(FirstPass(reg, s).settings), VersionsOf(s))
  {
    hide VersionsOf, JobsAfter, RunJobs, Minimum, Raises;
    FirstPassIs(reg, s);
    JobsAfterExact(reg, Minimum(VersionsOf(s)));
    RunJobsRaises(reg, JobsAfter(reg, Minimum(VersionsOf(s))), VersionsOf(s), s);
  }

  lemma {:induction false} RaisingNeverLowers(reg: Registry, s: Settings, k: Packed, m: nat)
    requires RaiseAbove(reg, k) && Minimum(VersionsOf(s)) >= k
    ensures !Lowers(reg, At(reg, s, m))
    decreases m
  {
    hide VersionsOf, FirstPass, RaiseAbove;
    FirstPassRaises(reg, s, k);
    if m > 0 && FirstPass(reg, s).restart {
      RaisingNeverLowers(reg, FirstPass(reg, s).settings, k, m - 1);
    }
  }

  /** So they do if no migration for a version above one of the stored ones, the only ones that can run,
      lowers a stored version. */
  lemma RaisingEnds(reg: Registry, s: Settings)
    requires var v := VersionsOf(s);
             forall j, i :: j in reg && (j > v.app || j > v.proof) && 0 <= i < |reg[j]| ==> Raises(reg[j][i])
    ensures Ends(reg, s)
  {
    var k := Minimum(VersionsOf(s));
    assert RaiseAbove(reg, k);
    hide RaiseAbove, VersionsOf, Minimum, Ends, Lowers, At;
    forall m: nat ensures !Lowers(reg, At(reg, s, m)) {
      RaisingNeverLowers(reg, s, k, m);
    }
    assert LowersNoMore(reg, s, 0);
    EndsIffFewLower(reg, s);
  }

  /** One migration that takes the stored application version to 1.0.0.0 and back. */
  ghost function Swing(): Migration {
    (app: Packed, proof: Packed, s: Settings) => s.(app := if app == 0 then UnpackToText(WORD3) else "")
  }

  ghost function Swinging(): Registry { map[WORD4 - 1 := [Swing()]] }

  lemma SwingJobs()
    ensures JobsAfter(Swinging(), 0) == [Job(WORD4 - 1, 0)]
  {
    var reg := Swinging();
    assert KeysAbove(reg, WORD4 - 1) == {};
    assert JobsAfter(reg, WORD4 - 1) == [];
    assert KeysAbove(reg, 0) == {WORD4 - 1};
    assert Least(KeysAbove(reg, 0)) == WORD4 - 1;
  }

  lemma SwingVersions(rest: map<string, string>)
    ensures VersionsOf(Settings("", "", rest)) == Versions(0, 0)
    ensures VersionsOf(Settings(UnpackToText(WORD3), "", rest)) == Versions(WORD3, 0)
  {
    assert AllFitShort(WORD3);
    ReadBackIffFits(WORD3);
    PackTrimmed(UnpackToText(WORD3));
    assert Trim("") == "" && PackText("") == 0;
    hide UnpackToText, PackText, Trim;
  }

  lemma SwingPass(app: string, rest: map<string, string>)
    requires app == "" || app == UnpackToText(WORD3)
    ensures var o := FirstPass(Swinging(), Settings(app, "", rest));
            o.restart && o.settings == Settings(if app == "" then UnpackToText(WORD3) else "", "", rest)
  {
    hide UnpackToText, VersionsOf, JobsAfter, FirstPass, RunJobs, Registered;
    var reg, s := Swinging(), Settings(app, "", rest);
    SwingVersions(rest);
    SwingJobs();
    FirstPassIs(reg, s);
    RunJobsOne(reg, Job(WORD4 - 1, 0), VersionsOf(s), s);
  }

  lemma {:induction false} SwingNeverSettles(app: string, rest: map<string, string>, n: nat)
    requires app == "" || app == UnpackToText(WORD3)
    ensures !Settles(Swinging(), Settings(app, "", rest), n)
    decreases n
  {
    hide FirstPass, Swinging, UnpackToText;
    SwingPass(app, rest);
    if n > 0 {
      SwingNeverSettles(if app == "" then UnpackToText(WORD3) else "", rest, n - 1);
    }
  }

  /** Migrations that lower a stored version may never come to an end. */
  lemma LoweringMayNotEnd(rest: map<string, string>)
    ensures exists reg :: !Ends(reg, Settings("", "", rest))
  {
    hide Settles, Swinging, UnpackToText;
    forall n: nat ensures !Settles(Swinging(), Settings("", "", rest), n) {
      SwingNeverSettles("", rest, n);
    }
    assert !Ends(Swinging(), Settings("", "", rest));
  }

  // ---- What the passes run ----

  /** The migration is registered for a version above one of the stored ones. */
  ghost predicate Due(reg: Registry, v: Versions, j: Job) {
    j.key in reg && j.index < |reg[j.key]| && (j.key > v.app || j.key > v.proof)
  }

  /** All migrations that are due, each once, by ascending version and in the order they were added. */
  ghost predicate AllDue(reg: Registry, v: Versions, jobs: seq<Job>) {
    Ascending(jobs) && forall j :: j in jobs <==> Due(reg, v, j)
  }

  ghost predicate Partial(reg: Registry, p: Pass) { exists all :: AllDue(reg, p.versions, all) && p.ran <= all }

  ghost predicate Complete(reg: Registry, p: Pass, s: Settings) {
    p.versions == VersionsOf(s) && AllDue(reg, p.versions, p.ran)
  }

  /** The settings after these migrations, given the versions `v`. */
  ghost function Replay(reg: Registry, jobs: seq<Job>, v: Versions, s: Settings): Settings
    requires Registered(reg, jobs)
    decreases |jobs|
  {
    if jobs == [] then s
    else
      var j := jobs[|jobs| - 1];
      assert j in jobs;
      assert Registered(reg, jobs[..|jobs| - 1]);
      reg[j.key][j.index](v.app, v.proof, Replay(reg, jobs[..|jobs| - 1], v, s))
  }

  /** The pass led from `s` to `t`, and none of its migrations but the last changed a stored version. */
  ghost predicate Took(reg: Registry, p: Pass, s: Settings, t: Settings) {
    && p.versions == VersionsOf(s) && Registered(reg, p.ran) && t == Replay(reg, p.ran, p.versions, s)
    && forall i {:trigger p.ran[..i]} :: 0 <= i < |p.ran| ==>
         Registered(reg, p.ran[..i]) && VersionsOf(Replay(reg, p.ran[..i], p.versions, s)) == p.versions
  }

  /** The passes of a start, with the settings before and after each: every pass but the last is a first part
      of what is due, cut off where a stored version changed; the last changed neither and is complete. */
  ghost predicate Followed(reg: Registry, passes: seq<Pass>, states: seq<Settings>) {
    var n := |passes| - 1;
    && n >= 0 && |states| == n + 2
    && (forall i :: 0 <= i <= n ==> Took(reg, passes[i], states[i], states[i + 1]) && Partial(reg, passes[i]))
    && (forall i :: 0 <= i < n ==> VersionsOf(states[i + 1]) != passes[i].versions)
    && Complete(reg, passes[n], states[n + 1])
  }

  lemma JobsAfterAreDue(reg: Registry, v: Versions)
    ensures AllDue(reg, v, JobsAfter(reg, Minimum(v)))
  {
    JobsAfterExact(reg, Minimum(v));
    hide JobsAfter, Ascending;
  }

  lemma {:induction false} ReplayFirst(reg: Registry, j: Job, rest: seq<Job>, v: Versions, s: Settings)
    requires Registered(reg, [j] + rest)
    ensures j.key in reg && j.index < |reg[j.key]| && Registered(reg, rest)
    ensures Replay(reg, [j] + rest, v, s) == Replay(reg, rest, v, reg[j.key][j.index](v.app, v.proof, s))
    decreases |rest|
  {
    var all := [j] + rest;
    assert j in all && forall i :: i in rest ==> i in all;
    if rest == [] {
      assert all == [j] && [j][..0] == [];
    } else {
      var n := |rest| - 1;
      assert all[..n + 1] == [j] + rest[..n];
      assert Registered(reg, all[..n + 1]);
      ReplayFirst(reg, j, rest[..n], v, s);
    }
  }

  /** A list of migrations is run up to the first that changes a version. */
  lemma {:induction false} RunJobsReplays(reg: Registry, jobs: seq<Job>, v: Versions, s: Settings)
    requires Registered(reg, jobs) && VersionsOf(s) == v
    ensures var o := RunJobs(reg, jobs, v, s); Took(reg, Pass(v, o.ran), s, o.settings)
    decreases |jobs|
  {
    hide VersionsOf;
    var o := RunJobs(reg, jobs, v, s);
    if jobs != [] {
      var j := jobs[0];
      RunJobsCons(reg, jobs, v, s);
      var s' := reg[j.key][j.index](v.app, v.proof, s);
      hide RunJobs;
      if VersionsOf(s') == v {
        assert Registered(reg, jobs[1..]);
        RunJobsReplays(reg, jobs[1..], v, s');
        TookFirst(reg, j, Pass(v, RunJobs(reg, jobs[1..], v, s').ran), s, o.settings);
      } else {
        assert Registered(reg, [j] + []) by { assert [j] + [] == [j]; }
        ReplayFirst(reg, j, [], v, s);
        assert [j] + [] == [j] && [j][..0] == [];
      }
    }
  }

  lemma TookFirst(reg: Registry, j: Job, p: Pass, s: Settings, t: Settings)
    requires j.key in reg && j.index < |reg[j.key]| && VersionsOf(s) == p.versions
    requires Took(reg, p, reg[j.key][j.index](p.versions.app, p.versions.proof, s), t)
    ensures Took(reg, Pass(p.versions, [j] + p.ran), s, t)
  {
    hide VersionsOf, Replay;
    var v, all := p.versions, [j] + p.ran;
    assert Registered(reg, all);
    ReplayFirst(reg, j, p.ran, v, s);
    forall i {:trigger all[..i]} | 0 <= i < |all| ensures Registered(reg, all[..i]) && VersionsOf(Replay(reg, all[..i], v, s)) == v {
      if i == 0 {
        assert all[..0] == [];
        NoReplay(reg, v, s);
      } else {
        assert all[..i] == [j] + p.ran[..i - 1];
        assert Registered(reg, [j] + p.ran[..i - 1]);
        ReplayFirst(reg, j, p.ran[..i - 1], v, s);
      }
    }
  }

  lemma NoReplay(reg: Registry, v: Versions, s: Settings)
    ensures Registered(reg, []) && Replay(reg, [], v, s) == s
  {
  }

  lemma FirstPassFollows(reg: Registry, s: Settings)
    ensures var o := FirstPass(reg, s);
            var pass := Pass(VersionsOf(s), o.ran);
            && Took(reg, pass, s, o.settings) && Partial(reg, pass)
            && (if o.restart then VersionsOf(o.settings) != VersionsOf(s) else Complete(reg, pass, o.settings))
  {
    var v := VersionsOf(s);
    hide FirstPass, VersionsOf, JobsAfter, Minimum, AllDue, Took, RunJobs;
    FirstPassIs(reg, s);
    FirstPassLeaves(reg, s);
    JobsAfterAreDue(reg, v);
    RunJobsReplays(reg, JobsAfter(reg, Minimum(v)), v, s);
  }

  lemma OnePassFollows(reg: Registry, pass: Pass, s: Settings, passes: seq<Pass>, states: seq<Settings>)
    requires Followed(reg, passes, states) && Took(reg, pass, s, states[0]) && Partial(reg, pass)
    requires VersionsOf(states[0]) != pass.versions
    ensures Followed(reg, [pass] + passes, [s] + states)
  {
    hide Partial, Took, Complete, VersionsOf;
    var all, between := [pass] + passes, [s] + states;
    var n := |passes|;
    assert all[n] == passes[n - 1] && between[n + 1] == states[n];
    forall i | 0 <= i < n ensures VersionsOf(between[i + 1]) != all[i].versions {
      if i > 0 {
        assert between[i + 1] == states[i] && all[i] == passes[i - 1];
      }
    }
  }

  lemma {:induction false} DriveFollowsIn(reg: Registry, s: Settings, n: nat) returns (states: seq<Settings>)
    requires Settles(reg, s, n)
    ensures Ends(reg, s)
    ensures var d := Drive(reg, s);
            |states| >= 2 && d.passes != [] && Followed(reg, d.passes, states)
            && states[0] == s && states[|states| - 1] == d.settings
    decreases n
  {
    hide *;
    FirstPassFollows(reg, s);
    DriveStep(reg, s, n);
    var o := FirstPass(reg, s);
    var pass := Pass(VersionsOf(s), o.ran);
    if o.restart {
      states := DriveFollowsIn(reg, o.settings, n - 1);
      OnePassFollows(reg, pass, s, Drive(reg, o.settings).passes, states);
      states := [s] + states;
    } else {
      states := [s, o.settings];
      OnlyPass(reg, pass, s, o.settings);
    }
  }

  lemma OnlyPass(reg: Registry, pass: Pass, s: Settings, t: Settings)
    requires Took(reg, pass, s, t) && Partial(reg, pass) && Complete(reg, pass, t)
    ensures Followed(reg, [pass], [s, t])
  {
    hide Partial, Took, Complete;
  }

  /** What the driver does from its first pass to its last. */
  lemma DriveFollows(reg: Registry, s: Settings) returns (states: seq<Settings>)
    requires Ends(reg, s)
    ensures var d := Drive(reg, s);
            |states| >= 2 && d.passes != [] && Followed(reg, d.passes, states)
            && states[0] == s && states[|states| - 1] == d.settings
  {
    hide *;
    var n := SomePasses(reg, s);
    states := DriveFollowsIn(reg, s, n);
  }

  /** The last pass ran exactly the migrations for versions above one of those stored when it ended, each
      once, by ascending version and in the order they were added; every other pass ran a first part of
      what was due. */
  lemma LastPassIsComplete(reg: Registry, s: Settings)
    requires Ends(reg, s)
    ensures var d := Drive(reg, s);
            && d.passes != []
            && (var last := d.passes[|d.passes| - 1];
                && last.versions == VersionsOf(d.settings) && Ascending(last.ran)
                && forall j: Job :: j in last.ran <==>
                     && j.key in reg && j.index < |reg[j.key]|
                     && (j.key > VersionsOf(d.settings).app || j.key > VersionsOf(d.settings).proof))
            && (forall i :: 0 <= i < |d.passes| ==> Partial(reg, d.passes[i]))
  {
    hide Drive, Partial, VersionsOf, Took, Ascending;
    var states := DriveFollows(reg, s);
  }

  // ---- The driver's loops ----

  /** A list after a list: the second runs if the first did not change the versions. */
  lemma {:induction false} RunJobsAppend(reg: Registry, a: seq<Job>, b: seq<Job>, v: Versions, s: Settings)
    requires Registered(reg, a) && Registered(reg, b) && Registered(reg, a + b)
    ensures var o := RunJobs(reg, a, v, s);
            RunJobs(reg, a + b, v, s) ==
              if o.restart then o
              else Outcome(RunJobs(reg, b, v, o.settings).settings, RunJobs(reg, b, v, o.settings).restart,
                           o.ran + RunJobs(reg, b, v, o.settings).ran)
    decreases |a|
  {
    if a == [] {
      assert a + b == b;
    } else {
      var j := a[0];
      var s' := reg[j.key][j.index](v.app, v.proof, s);
      assert (a + b)[1..] == a[1..] + b && (a + b)[0] == j;
      RunJobsCons(reg, a, v, s);
      RunJobsCons(reg, a + b, v, s);
      hide RunJobs, VersionsOf, Registered;
      RunJobsAppend(reg, a[1..], b, v, s');
      Assoc([j], RunJobs(reg, a[1..], v, s').ran, RunJobs(reg, b, v, RunJobs(reg, a[1..], v, s').settings).ran);
    }
  }

  lemma RunJobsCons(reg: Registry, jobs: seq<Job>, v: Versions, s: Settings)
    requires Registered(reg, jobs) && jobs != []
    ensures jobs[0].key in reg && jobs[0].index < |reg[jobs[0].key]| && Registered(reg, jobs[1..])
    ensures var s' := reg[jobs[0].key][jobs[0].index](v.app, v.proof, s);
            RunJobs(reg, jobs, v, s) ==
              if VersionsOf(s') != v then Outcome(s', true, [jobs[0]])
              else RunJobs(reg, jobs[1..], v, s').(ran := [jobs[0]] + RunJobs(reg, jobs[1..], v, s').ran)
  {
    hide VersionsOf;
  }

  lemma RunJobsOne(reg: Registry, j: Job, v: Versions, s: Settings)
    requires Registered(reg, [j])
    ensures j.key in reg && j.index < |reg[j.key]|
    ensures var t := reg[j.key][j.index](v.app, v.proof, s);
            RunJobs(reg, [j], v, s) == Outcome(t, VersionsOf(t) != v, [j])
  {
    assert j in [j];
    assert Registered(reg, [j][1..]);
    hide VersionsOf;
  }

  /** `now` is `reg` with empty lists for some more versions. */
  ghost predicate Padded(reg: Registry, now: Registry) {
    && (forall k :: k in reg ==> k in now && now[k] == reg[k])
    && (forall k :: k in now && k !in reg ==> now[k] == [])
  }

  lemma PaddedSelf(reg: Registry)
    ensures Padded(reg, reg)
  {
  }

  ghost predicate NextAbove(now: Registry, k: Packed, next: Option<Packed>) {
    && (next.Some? ==> next.value in now && next.value > k)
    && (forall j :: j in now && j > k ==> next.Some? && next.value <= j)
  }

  lemma NextJobs(reg: Registry, now: Registry, k: Packed, next: Option<Packed>)
    requires Padded(reg, now) && NextAbove(now, k, next)
    ensures next.None? ==> JobsAfter(reg, k) == []
    ensures next.Some? ==>
              JobsAfter(reg, k) == JobsOf(next.value, |now[next.value]|) + JobsAfter(reg, next.value)
  {
    if next.Some? {
      var l := next.value;
      if l in KeysAbove(reg, k) {
        assert Least(KeysAbove(reg, k)) == l;
      } else {
        assert KeysAbove(reg, k) == KeysAbove(reg, l);
        assert JobsOf(l, 0) == [];
      }
    }
  }

  lemma JobsOfRegistered(reg: Registry, now: Registry, k: Packed)
    requires Padded(reg, now) && k in now
    ensures Registered(reg, JobsOf(k, |now[k]|))
  {
    forall j | j in JobsOf(k, |now[k]|) ensures j.key in reg && j.index < |reg[j.key]| {
      var i :| 0 <= i < |now[k]| && JobsOf(k, |now[k]|)[i] == j;
    }
  }

  predicate UpToDate(s: Settings, app: string, proof: string) {
    VersionsOf(s).app >= PackText(app) && VersionsOf(s).proof >= PackText(proof)
  }

  /** After the passes `done` and with the settings `s`, what is left to do makes up the whole. */
  ghost predicate Owes(reg: Registry, whole: Driven, done: seq<Pass>, s: Settings, n: nat) {
    && Settles(reg, s, n) && Ends(reg, s)
    && whole == Driven(Drive(reg, s).settings, done + Drive(reg, s).passes)
  }

  lemma OwesAll(reg: Registry, s: Settings, n: nat)
    requires Settles(reg, s, n)
    ensures Ends(reg, s) && Owes(reg, Drive(reg, s), [], s, n)
  {
    hide Settles, Drive;
    DriveIs(reg, s, n);
    assert [] + Drive(reg, s).passes == Drive(reg, s).passes;
  }

  lemma OwesLess(reg: Registry, whole: Driven, done: seq<Pass>, s: Settings, n: nat)
    requires Owes(reg, whole, done, s, n)
    ensures var o := FirstPass(reg, s);
            var now := done + [Pass(VersionsOf(s), o.ran)];
            if o.restart then n > 0 && Owes(reg, whole, now, o.settings, n - 1) else whole == Driven(o.settings, now)
  {
    hide Settles, Drive, FirstPass, VersionsOf, Ends;
    DriveStep(reg, s, n);
    var o := FirstPass(reg, s);
    if o.restart {
      Assoc(done, [Pass(VersionsOf(s), o.ran)], Drive(reg, o.settings).passes);
    }
  }

  lemma StoredVersions(s: Settings)
    ensures VersionsOf(s).app == PackText(Trim(s.app)) && VersionsOf(s).proof == PackText(Trim(s.proof))
  {
    hide PackText, Trim;
  }

  class CoreApplication {
    var migrations: Registry
    var settings: Settings
    const applicationVersion: string
    const proofVersion: string
    ghost var passes: seq<Pass>

    constructor (settings: Settings, applicationVersion: string, proofVersion: string)
      ensures migrations == map[] && this.settings == settings && passes == []
      ensures this.applicationVersion == applicationVersion && this.proofVersion == proofVersion
    {
      migrations, passes := map[], [];
      this.settings, this.applicationVersion, this.proofVersion := settings, applicationVersion, proofVersion;
    }

    method AddMigration(maxRelatedVersion: Packed, migration: Migration)
      modifies this`migrations
      ensures migrations == old(migrations)[maxRelatedVersion :=
                (if maxRelatedVersion in old(migrations) then old(migrations)[maxRelatedVersion] else []) + [migration]]
    {
      var list := if maxRelatedVersion in migrations then migrations[maxRelatedVersion] else [];
      migrations := migrations[maxRelatedVersion := list + [migration]];
    }

    /** The next version in the map. */
    method NextKey(k: Packed) returns (next: Option<Packed>)
      ensures NextAbove(migrations, k, next)
    {
      next := None;
      var rest := migrations.Keys;
      while rest != {}
        invariant rest <= migrations.Keys
        invariant next.Some? ==> next.value in migrations && next.value > k
        invariant forall j :: j in migrations && j !in rest && j > k ==> next.Some? && next.value <= j
        decreases rest
      {
        var j :| j in rest;
        rest := rest - {j};
        if j > k && (next.None? || j < next.value) {
          next := Some(j);
        }
      }
    }

    /** Runs the list for one version, until a version changes. */
    method RunList(k: Packed, v: Versions, ghost reg: Registry) returns (changed: bool)
      requires Padded(reg, migrations) && k in migrations && Registered(reg, JobsOf(k, |migrations[k]|))
      modifies this`settings
      ensures var o := RunJobs(reg, JobsOf(k, |migrations[k]|), v, old(settings));
              settings == o.settings && changed == o.restart
    {
      var list := migrations[k];
      ghost var jobs := JobsOf(k, |list|);
      changed := false;
      var i := 0;
      assert jobs[..0] == [] && jobs[..|list|] == jobs;
      while i < |list|
        invariant i <= |list| && !changed
        invariant Registered(reg, jobs[..i]) && RunJobs(reg, jobs[..i], v, old(settings)).settings == settings
        invariant !RunJobs(reg, jobs[..i], v, old(settings)).restart
      {
        JobsSplit(reg, jobs, i);
        RunJobsAppend(reg, jobs[..i], [jobs[i]], v, old(settings));
        RunJobsOne(reg, jobs[i], v, settings);
        settings := list[i](v.app, v.proof, settings);
        if VersionsOf(settings) != v {
          changed := true;
          RunJobsAppend(reg, jobs[..i + 1], jobs[i + 1..], v, old(settings));
          break;
        }
        i := i + 1;
      }
    }

    /** Runs the lists above `k` in order, until a version changes. */
    method RunListsAbove(k: Packed, v: Versions, ghost reg: Registry) returns (changed: bool)
      requires Padded(reg, migrations)
      modifies this`settings
      ensures Registered(reg, JobsAfter(reg, k))
      ensures var o := RunJobs(reg, JobsAfter(reg, k), v, old(settings));
              settings == o.settings && changed == o.restart
    {
      ghost var all, done := JobsAfter(reg, k), [];
      JobsRegistered(reg, k);
      changed := false;
      var it := NextKey(k);
      ghost var at := k;
      while !changed && it.Some?
        invariant changed || (NextAbove(migrations, at, it) && all == done + JobsAfter(reg, at))
        invariant Registered(reg, done)
        invariant var o := RunJobs(reg, if changed then all else done, v, old(settings));
                  settings == o.settings && changed == o.restart
        decreases WORD4 - at, if changed then 0 else 1
      {
        ghost var jobs, rest := JobsOf(it.value, |migrations[it.value]|), JobsAfter(reg, it.value);
        NextJobs(reg, migrations, at, it);
        JobsOfRegistered(reg, migrations, it.value);
        JobsRegistered(reg, it.value);
        OneListMore(reg, done, jobs, rest, v, old(settings));
        changed := RunList(it.value, v, reg);
        done, at := done + jobs, it.value;
        it := NextKey(it.value);
      }
      if !changed {
        NextJobs(reg, migrations, at, it);
        assert done + [] == done;
      }
    }

    /** One pass over the migrations. Looking up the smaller version makes an empty list for it. */
    method RunPass(v: Versions, ghost reg: Registry) returns (changed: bool)
      requires Padded(reg, migrations) && v == VersionsOf(settings)
      modifies this`migrations, this`settings
      ensures Padded(reg, migrations)
      ensures settings == FirstPass(reg, old(settings)).settings && changed == FirstPass(reg, old(settings)).restart
    {
      FirstPassIs(reg, settings);
      hide VersionsOf, JobsAfter, RunJobs, FirstPass;
      var minVersion := Minimum(v);
      if minVersion !in migrations {
        migrations := migrations[minVersion := []];
      }
      changed := RunListsAbove(minVersion, v, reg);
    }

    /** The driver. Stored versions that are not below the running ones leave nothing to do. */
    method ExecMigrations() returns (ghost states: seq<Settings>)
      requires !UpToDate(settings, applicationVersion, proofVersion) ==> Ends(migrations, settings)
      modifies this
      ensures migrations == map[]
      ensures passes == [] <==>
                && PackText(Trim(old(settings).app)) >= PackText(applicationVersion)
                && PackText(Trim(old(settings).proof)) >= PackText(proofVersion)
      ensures UpToDate(old(settings), applicationVersion, proofVersion) ==>
                settings == old(settings) && passes == []
      ensures !UpToDate(old(settings), applicationVersion, proofVersion) ==>
                var d := Drive(old(migrations), old(settings));
                passes == d.passes && settings == Settings(applicationVersion, proofVersion, d.settings.rest)
      ensures !UpToDate(old(settings), applicationVersion, proofVersion) ==>
                && Followed(old(migrations), passes, states) && states[0] == old(settings)
                && settings == Settings(applicationVersion, proofVersion, states[|states| - 1].rest)
    {
      StoredVersions(settings);
      hide Followed, VersionsOf, JobsAfter, RunJobs, FirstPass, Drive, DriveIn, Settles, Ends, Owes, Minimum, Padded, PackText, PackList;
      ghost var reg := migrations;
      passes, states := [], [];
      var v := VersionsOf(settings);
      if v.app >= PackText(applicationVersion) && v.proof >= PackText(proofVersion) {
        migrations := map[];
        return;
      }
      PaddedSelf(reg);
      ghost var n := SomePasses(reg, settings);
      ghost var whole := Drive(reg, settings);
      OwesAll(reg, settings, n);
      states := DriveFollows(reg, settings);
      var versionChanged := true;
      while versionChanged
        invariant Padded(reg, migrations) && v == VersionsOf(settings)
        invariant versionChanged ==> Owes(reg, whole, passes, settings, n)
        invariant !versionChanged ==> whole == Driven(settings, passes)
        decreases n, versionChanged
      {
        ghost var before := settings;
        versionChanged := RunPass(v, reg);
        ghost var pass := Pass(v, FirstPass(reg, before).ran);
        OwesLess(reg, whole, passes, before, n);
        if versionChanged {
          n := n - 1;
        }
        passes := passes + [pass];
        v := VersionsOf(settings);
      }
      migrations := map[];
      settings := Settings(applicationVersion, proofVersion, settings.rest);
    }
  }

  /** The next list, when all lists so far changed no version. */
  lemma OneListMore(reg: Registry, done: seq<Job>, jobs: seq<Job>, rest: seq<Job>, v: Versions, s: Settings)
    requires Registered(reg, done) && Registered(reg, jobs) && Registered(reg, rest)
    requires !RunJobs(reg, done, v, s).restart
    ensures Registered(reg, done + jobs) && Registered(reg, done + (jobs + rest))
    ensures done + (jobs + rest) == done + jobs + rest
    ensures var o := RunJobs(reg, jobs, v, RunJobs(reg, done, v, s).settings);
            && RunJobs(reg, done + jobs, v, s).settings == o.settings
            && RunJobs(reg, done + jobs, v, s).restart == o.restart
            && (o.restart ==> RunJobs(reg, done + (jobs + rest), v, s) == RunJobs(reg, done + jobs, v, s))
  {
    Assoc(done, jobs, rest);
    RunJobsAppend(reg, done, jobs, v, s);
    RunJobsAppend(reg, done + jobs, rest, v, s);
    hide RunJobs;
  }

  lemma JobsSplit(reg: Registry, jobs: seq<Job>, i: nat)
    requires Registered(reg, jobs) && i < |jobs|
    ensures Registered(reg, jobs[..i]) && Registered(reg, [jobs[i]]) && Registered(reg, jobs[i + 1..])
    ensures jobs[..i + 1] == jobs[..i] + [jobs[i]] && jobs == jobs[..i + 1] + jobs[i + 1..]
    ensures Registered(reg, jobs[..i + 1])
  {
    forall j | j in jobs[..i + 1] ensures j in jobs {
    }
  }

  // ---- The start after that ----

  lemma {:induction false} TrimBack(x: string, c: char)
    requires IsSpace(c)
    ensures Trim(x + [c]) == Trim(x)
    decreases |x|
  {
    if x == "" {
      assert x + [c] == [c] && [c][1..] == "";
    } else if IsSpace(x[0]) {
      assert (x + [c])[1..] == x[1..] + [c];
      TrimBack(x[1..], c);
    } else {
      assert (x + [c])[..|x|] == x;
    }
  }

  lemma SpaceInFront(c: char, s: string)
    requires c != '.'
    ensures Split([c] + s, '.') == [[c] + Split(s, '.')[0]] + Split(s, '.')[1..]
  {
    var i := IndexOf(s, '.');
    var t := [c] + s;
    hide Split, IndexOf;
    if i == -1 {
      SplitNone(s);
      SplitNone(t);
    } else {
      assert t[..i + 1] == [c] + s[..i] && t[i + 2..] == s[i + 1..];
      SplitAt(s, i);
      SplitAt(t, i + 1);
      assert ([s[..i]] + Split(s[i + 1..], '.'))[1..] == Split(s[i + 1..], '.');
    }
  }

  /** A character added to the last piece. */
  function WithLast(parts: seq<string>, c: char): seq<string>
    requires parts != []
  {
    parts[|parts| - 1 := parts[|parts| - 1] + [c]]
  }

  lemma WithLastCons(first: string, rest: seq<string>, c: char)
    requires rest != []
    ensures WithLast([first] + rest, c) == [first] + WithLast(rest, c)
  {
  }

  lemma SplitAt(s: string, i: nat)
    requires i < |s| && s[i] == '.' && '.' !in s[..i]
    ensures Split(s, '.') == [s[..i]] + Split(s[i + 1..], '.')
  {
    IndexOfUnique(s, '.', i);
  }

  lemma SplitNone(s: string)
    requires '.' !in s
    ensures Split(s, '.') == [s]
  {
  }

  lemma {:induction false} SpaceBehind(s: string, c: char)
    requires c != '.'
    ensures Split(s + [c], '.') == WithLast(Split(s, '.'), c)
    decreases |s|
  {
    var i := IndexOf(s, '.');
    var t := s + [c];
    hide Split;
    if i == -1 {
      SplitNone(s);
      SplitNone(t);
    } else {
      assert t[..i] == s[..i] && t[i + 1..] == s[i + 1..] + [c];
      SplitAt(s, i);
      SplitAt(t, i);
      SpaceBehind(s[i + 1..], c);
      WithLastCons(s[..i], Split(s[i + 1..], '.'), c);
      hide IndexOf, WithLast;
    }
  }

  lemma ShortTrimmed(x: string, y: string)
    requires Trim(x) == Trim(y)
    ensures ToShort(x) == ToShort(y)
  {
    hide Trim, AllDigits, DigitsValue;
  }

  lemma SamePacked(a: seq<string>, b: seq<string>)
    requires |a| == |b| && forall i :: 0 <= i < |a| ==> ToShort(a[i]) == ToShort(b[i])
    ensures PackList(a) == PackList(b)
  {
    hide ToShort, PackWide;
  }

  lemma PackBehind(s: string, c: char)
    requires IsSpace(c)
    ensures PackText(s + [c]) == PackText(s)
  {
    var parts := Split(s, '.');
    var last := parts[|parts| - 1];
    assert c != '.';
    hide Split, ToShort, PackList, Trim, IsSpace;
    SpaceBehind(s, c);
    TrimBack(last, c);
    ShortTrimmed(last + [c], last);
    SamePacked(WithLast(parts, c), parts);
  }

  lemma TrimFront(c: char, x: string)
    requires IsSpace(c)
    ensures Trim([c] + x) == Trim(x)
  {
    assert ([c] + x)[1..] == x;
  }

  lemma SameAfterFirst(a: string, b: string, rest: seq<string>)
    requires ToShort(a) == ToShort(b)
    ensures PackList([a] + rest) == PackList([b] + rest)
  {
    hide ToShort, PackList;
    SamePacked([a] + rest, [b] + rest);
  }

  lemma PackInFront(c: char, s: string)
    requires IsSpace(c)
    ensures PackText([c] + s) == PackText(s)
  {
    var parts := Split(s, '.');
    assert c != '.';
    hide Split, ToShort, PackList, Trim, IsSpace;
    SpaceInFront(c, s);
    TrimFront(c, parts[0]);
    ShortTrimmed([c] + parts[0], parts[0]);
    assert parts == [parts[0]] + parts[1..];
    SameAfterFirst([c] + parts[0], parts[0], parts[1..]);
  }

  /** White space around a version text does not count. */
  lemma {:induction false} PackTrimmed(s: string)
    ensures PackText(Trim(s)) == PackText(s)
    decreases |s|
  {
    hide PackText, IsSpace;
    if s != "" {
      var n := |s| - 1;
      if IsSpace(s[0]) {
        PackTrimmed(s[1..]);
        PackInFront(s[0], s[1..]);
        assert s == [s[0]] + s[1..];
      } else if IsSpace(s[n]) {
        PackTrimmed(s[..n]);
        PackBehind(s[..n], s[n]);
        assert s == s[..n] + [s[n]];
      }
    }
  }

  lemma StampedIsUpToDate(app: string, proof: string, rest: map<string, string>)
    ensures UpToDate(Settings(app, proof, rest), app, proof)
  {
    PackTrimmed(app);
    PackTrimmed(proof);
    hide PackText, Trim;
  }

  /** When the application starts again with the same versions, no migration runs, whichever there are. */
  method StartAgain(first: CoreApplication, registry: Registry) returns (second: CoreApplication)
    requires !UpToDate(first.settings, first.applicationVersion, first.proofVersion) ==>
               Ends(first.migrations, first.settings)
    modifies first
    ensures fresh(second) && second.passes == [] && second.settings == first.settings
  {
    var _ := first.ExecMigrations();
    StampedIsUpToDate(first.applicationVersion, first.proofVersion, first.settings.rest);
    second := new CoreApplication(first.settings, first.applicationVersion, first.proofVersion);
    second.migrations := registry;
    var _ := second.ExecMigrations();
  }
}
