/** The pool of worker threads that connections are spread over, and the counting of their sockets. */
module WorkerPool {
  import opened Runs
  import opened Text

  type WorkerId = nat
  type Connection = nat

  datatype WorkerInfo = WorkerInfo(worker: WorkerId, socketCount: int)

  /** Waiting: handed to a worker whose thread has not handled it yet. Open: its socket is registered.
      Leaving: taken out of the registered sockets, but still counted. Gone: no longer counted. */
  datatype Stage = Waiting | Open | Leaving | Gone

  datatype Handed = Handed(worker: WorkerId, stage: Stage)

  /** How far the server is with a connection. Looking: going through the pool, up to `next`, for the
      worker with the fewest sockets. Counting: about to count it for worker `best`. Making: about to make
      a new worker. Recorded: the counts there were when it began to look. */
  datatype Accepting =
    | Idle
    | Looking(c: Connection, best: nat, next: nat, start: seq<int>)
    | Counting(c: Connection, best: nat, start: seq<int>)
    | Making(c: Connection)

  /** The server: its pool, the registered sockets, and the connection it is accepting. Recorded: what
      became of every connection, and every time a count went down. */
  datatype State = State(
    pool: seq<WorkerInfo>,
    sockets: set<Connection>,
    suggestedMax: int,
    nextWorker: WorkerId,
    accepting: Accepting,
    handed: map<Connection, Handed>,
    released: seq<Connection>)

  function Init(suggestedMax: int): State { State([], {}, suggestedMax, 0, Idle, map[], []) }

  datatype Event =
    | Accept(c: Connection)
    | Compare
    | Decide
    | CountUp
    | AddWorker
    | Register(c: Connection)
    | Delete(c: Connection)
    | CountDown(c: Connection)

  /** Connections are accepted one at a time; any thread may delete any socket it once handled, at any
      time and repeatedly. Counts go down under the same shared lock under which the server looks, decides
      and counts up. */
  predicate Enabled(s: State, e: Event) {
    match e
    case Accept(c) => s.accepting.Idle? && c !in s.handed
    case Compare => s.accepting.Looking? && s.accepting.next < |s.pool|
    case Decide => s.accepting.Looking? && s.accepting.next >= |s.pool|
    case CountUp => s.accepting.Counting?
    case AddWorker => s.accepting.Making?
    case Register(c) => c in s.handed && s.handed[c].stage == Waiting
    case Delete(c) => c in s.handed && s.handed[c].stage != Waiting
    case CountDown(c) => c in s.handed && s.handed[c].stage == Leaving
  }

  // ---- The operations on the pool ----

  /** The first worker with the fewest sockets. */
  function LeastLoaded(pool: seq<WorkerInfo>): (k: nat)
    requires pool != []
    ensures k < |pool|
    ensures forall i :: 0 <= i < |pool| ==> pool[k].socketCount <= pool[i].socketCount
    ensures forall i :: 0 <= i < k ==> pool[k].socketCount < pool[i].socketCount
  {
    if |pool| == 1 then 0
    else
      var n := |pool| - 1;
      var k := LeastLoaded(pool[..n]);
      if pool[n].socketCount < pool[k].socketCount then n else k
  }

  /** The worker to take a new connection: the least loaded, if it is idle or the pool is full. */
  function Chosen(pool: seq<WorkerInfo>, suggestedMax: int): Option<nat> {
    if pool == [] then None
    else
      var k := LeastLoaded(pool);
      if pool[k].socketCount == 0 || |pool| >= suggestedMax then Some(k) else None
  }

  /** The state after a connection has been accepted with nothing else happening. */
  function Accepted(s: State, c: Connection): State {
    var k := Chosen(s.pool, s.suggestedMax);
    if k.None? then
      s.(pool := s.pool + [WorkerInfo(s.nextWorker, 1)], nextWorker := s.nextWorker + 1,
         handed := s.handed[c := Handed(s.nextWorker, Waiting)])
    else s.(pool := Counted(s.pool, k.value, 1), handed := s.handed[c := Handed(s.pool[k.value].worker, Waiting)])
  }

  /** The position of a worker, or the length of the pool. */
  function PositionOf(pool: seq<WorkerInfo>, w: WorkerId): (k: nat)
    ensures k <= |pool| && (k < |pool| ==> pool[k].worker == w)
    ensures forall i :: 0 <= i < k ==> pool[i].worker != w
  {
    if pool == [] then 0 else if pool[0].worker == w then 0 else 1 + PositionOf(pool[1..], w)
  }

  function Counted(pool: seq<WorkerInfo>, k: nat, change: int): seq<WorkerInfo> {
    if k >= |pool| then pool else pool[k := pool[k].(socketCount := pool[k].socketCount + change)]
  }

  function Counts(pool: seq<WorkerInfo>): (counts: seq<int>)
    ensures |counts| == |pool|
  {
    seq(|pool|, i requires 0 <= i < |pool| => pool[i].socketCount)
  }

  function SetStage(s: State, c: Connection, stage: Stage): State
    requires c in s.handed
  {
    s.(handed := s.handed[c := s.handed[c].(stage := stage)])
  }

  function Apply(s: State, e: Event): State {
    match e
    case Accept(c) =>
      s.(accepting := if s.pool == [] then Making(c) else Looking(c, 0, 1, Counts(s.pool)))
    case Compare =>
      if !s.accepting.Looking? || s.accepting.best >= |s.pool| || s.accepting.next >= |s.pool| then s
      else
        var (best, next) := (s.accepting.best, s.accepting.next);
        var less := s.pool[next].socketCount < s.pool[best].socketCount;
        s.(accepting := s.accepting.(best := if less then next else best, next := next + 1))
    case Decide =>
      if !s.accepting.Looking? || s.accepting.best >= |s.pool| then s
      else
        var (c, best) := (s.accepting.c, s.accepting.best);
        var takes := s.pool[best].socketCount == 0 || |s.pool| >= s.suggestedMax;
        s.(accepting := if takes then Counting(c, best, s.accepting.start) else Making(c))
    case CountUp =>
      if !s.accepting.Counting? || s.accepting.best >= |s.pool| then s
      else
        var (c, best) := (s.accepting.c, s.accepting.best);
        s.(pool := Counted(s.pool, best, 1), handed := s.handed[c := Handed(s.pool[best].worker, Waiting)], accepting := Idle)
    case AddWorker =>
      if !s.accepting.Making? then s
      else s.(pool := s.pool + [WorkerInfo(s.nextWorker, 1)], nextWorker := s.nextWorker + 1, accepting := Idle,
              handed := s.handed[s.accepting.c := Handed(s.nextWorker, Waiting)])
    case Register(c) => if c !in s.handed then s else SetStage(s, c, Open).(sockets := s.sockets + {c})
    case Delete(c) =>
      if c !in s.sockets || c !in s.handed then s else SetStage(s, c, Leaving).(sockets := s.sockets - {c})
    case CountDown(c) =>
      if c !in s.handed then s
      else SetStage(s, c, Gone).(pool := Counted(s.pool, PositionOf(s.pool, s.handed[c].worker), -1),
                                 released := s.released + [c])
  }

  ghost predicate Reachable(s: State) {
    exists run :: Valid(Enabled, Apply, Init(s.suggestedMax), run) && After(Apply, Init(s.suggestedMax), run) == s
  }

  // ---- Invariant ----

  /** The connections handed to a worker and still counted. */
  function HeldBy(handed: map<Connection, Handed>, w: WorkerId): set<Connection> {
    set c | c in handed && handed[c].worker == w && handed[c].stage != Gone
  }

  function Limit(suggestedMax: int): int { if suggestedMax > 1 then suggestedMax else 1 }

  predicate PoolOk(s: State) {
    && (forall i :: 0 <= i < |s.pool| ==> s.pool[i].worker < s.nextWorker)
    && (forall i, j :: 0 <= i < j < |s.pool| ==> s.pool[i].worker != s.pool[j].worker)
    && |s.pool| <= Limit(s.suggestedMax)
    && (!s.accepting.Idle? ==> s.accepting.c !in s.handed)
    && (s.accepting.Making? ==> |s.pool| < Limit(s.suggestedMax))
  }

  /** What the server found up to now has no more sockets than any worker it looked at had when it began:
      since then counts have only gone down. */
  predicate LookOk(s: State) {
    var a := s.accepting;
    && (a.Looking? || a.Counting? ==>
          && a.best < |s.pool| && |a.start| == |s.pool|
          && forall i :: 0 <= i < |s.pool| ==> s.pool[i].socketCount <= a.start[i])
    && (a.Looking? ==>
          a.best < a.next <= |s.pool| && forall i :: 0 <= i < a.next ==> s.pool[a.best].socketCount <= a.start[i])
    && (a.Counting? ==> forall i :: 0 <= i < |s.pool| ==> s.pool[a.best].socketCount <= a.start[i])
  }

  predicate CountsOk(s: State) {
    forall i :: 0 <= i < |s.pool| ==> s.pool[i].socketCount == |HeldBy(s.handed, s.pool[i].worker)|
  }

  /** Every connection was handed to a worker of the pool. */
  predicate Pooled(handed: map<Connection, Handed>, pool: seq<WorkerInfo>) {
    forall c :: c in handed ==> PositionOf(pool, handed[c].worker) < |pool|
  }

  ghost predicate SocketsOk(s: State) {
    forall c :: c in s.sockets <==> c in s.handed && s.handed[c].stage == Open
  }

  ghost predicate HandedOk(s: State) { Pooled(s.handed, s.pool) && SocketsOk(s) }

  ghost predicate ReleasedOk(s: State) {
    forall c :: multiset(s.released)[c] == if c in s.handed && s.handed[c].stage == Gone then 1 else 0
  }

  ghost predicate Inv(s: State) { PoolOk(s) && LookOk(s) && CountsOk(s) && HandedOk(s) && ReleasedOk(s) }

  /** Taking on a connection counts one more for its worker only. */
  lemma HeldNew(handed: map<Connection, Handed>, c: Connection, w: WorkerId, v: WorkerId)
    requires c !in handed
    ensures |HeldBy(handed[c := Handed(w, Waiting)], v)| == |HeldBy(handed, v)| + if v == w then 1 else 0
  {
    var after := HeldBy(handed[c := Handed(w, Waiting)], v);
    if v == w {
      assert after == HeldBy(handed, v) + {c};
    } else {
      assert after == HeldBy(handed, v);
    }
  }

  lemma HeldStage(handed: map<Connection, Handed>, c: Connection, stage: Stage, v: WorkerId)
    requires c in handed && handed[c].stage != Gone
    ensures var after := handed[c := handed[c].(stage := stage)];
            |HeldBy(after, v)| == |HeldBy(handed, v)| - if v == handed[c].worker && stage == Gone then 1 else 0
  {
    var after := HeldBy(handed[c := handed[c].(stage := stage)], v);
    if v == handed[c].worker && stage == Gone {
      assert HeldBy(handed, v) == after + {c};
    } else {
      assert after == HeldBy(handed, v);
    }
  }

  lemma HeldNone(handed: map<Connection, Handed>, pool: seq<WorkerInfo>, w: WorkerId)
    requires Pooled(handed, pool)
    requires forall i :: 0 <= i < |pool| ==> pool[i].worker != w
    ensures HeldBy(handed, w) == {}
  {
  }

  lemma {:induction false} PositionGrows(pool: seq<WorkerInfo>, more: seq<WorkerInfo>, w: WorkerId)
    ensures PositionOf(pool, w) < |pool| ==> PositionOf(pool + more, w) == PositionOf(pool, w)
  {
    if pool != [] && pool[0].worker != w {
      PositionGrows(pool[1..], more, w);
      assert (pool + more)[1..] == pool[1..] + more;
    }
  }

  lemma SamePositions(pool: seq<WorkerInfo>, k: nat, change: int, w: WorkerId)
    ensures PositionOf(Counted(pool, k, change), w) == PositionOf(pool, w)
  {
    SameWorkers(pool, Counted(pool, k, change), w);
  }

  lemma {:induction false} SameWorkers(pool: seq<WorkerInfo>, other: seq<WorkerInfo>, w: WorkerId)
    requires |pool| == |other| && forall i :: 0 <= i < |pool| ==> pool[i].worker == other[i].worker
    ensures PositionOf(other, w) == PositionOf(pool, w)
  {
    if pool != [] && pool[0].worker != w {
      SameWorkers(pool[1..], other[1..], w);
    }
  }

  lemma PositionFound(pool: seq<WorkerInfo>, i: nat)
    requires i < |pool|
    ensures PositionOf(pool, pool[i].worker) <= i
  {
  }

  lemma StepKeepsPool(s: State, e: Event)
    requires PoolOk(s) && LookOk(s) && Enabled(s, e)
    ensures PoolOk(Apply(s, e))
  {
    hide PositionOf, LeastLoaded;
  }

  lemma StepKeepsLook(s: State, e: Event)
    requires LookOk(s) && Enabled(s, e)
    ensures LookOk(Apply(s, e))
  {
    hide PositionOf, LeastLoaded;
  }

  lemma StepKeepsReleased(s: State, e: Event)
    requires PoolOk(s) && HandedOk(s) && ReleasedOk(s) && Enabled(s, e)
    ensures ReleasedOk(Apply(s, e))
  {
    hide PositionOf, Counted;
  }

  lemma CountUpKeepsCounts(s: State)
    requires PoolOk(s) && LookOk(s) && CountsOk(s) && Enabled(s, CountUp)
    ensures CountsOk(Apply(s, CountUp))
  {
    hide HeldBy;
    forall i | 0 <= i < |s.pool| {
      HeldNew(s.handed, s.accepting.c, s.pool[s.accepting.best].worker, s.pool[i].worker);
    }
  }

  lemma AddWorkerKeepsCounts(s: State)
    requires PoolOk(s) && CountsOk(s) && HandedOk(s) && Enabled(s, AddWorker)
    ensures CountsOk(Apply(s, AddWorker))
  {
    var t := Apply(s, AddWorker);
    HeldNone(s.handed, s.pool, s.nextWorker);
    hide HeldBy, HandedOk, PositionOf;
    forall i | 0 <= i < |t.pool| ensures t.pool[i].socketCount == |HeldBy(t.handed, t.pool[i].worker)| {
      HeldNew(s.handed, s.accepting.c, s.nextWorker, t.pool[i].worker);
    }
  }

  lemma StageKeepsCounts(s: State, c: Connection, stage: Stage)
    requires CountsOk(s) && c in s.handed && s.handed[c].stage != Gone && stage != Gone
    ensures CountsOk(SetStage(s, c, stage))
  {
    var t := SetStage(s, c, stage);
    hide HeldBy;
    forall i | 0 <= i < |t.pool| ensures t.pool[i].socketCount == |HeldBy(t.handed, t.pool[i].worker)| {
      HeldStage(s.handed, c, stage, s.pool[i].worker);
    }
  }

  lemma CountDownKeepsCounts(s: State, c: Connection)
    requires PoolOk(s) && CountsOk(s) && HandedOk(s) && Enabled(s, CountDown(c))
    ensures CountsOk(Apply(s, CountDown(c)))
  {
    hide HeldBy, PositionOf;
    forall i | 0 <= i < |s.pool| {
      HeldStage(s.handed, c, Gone, s.pool[i].worker);
    }
  }

  lemma StepKeepsCounts(s: State, e: Event)
    requires PoolOk(s) && LookOk(s) && CountsOk(s) && HandedOk(s) && Enabled(s, e)
    ensures CountsOk(Apply(s, e))
  {
    match e
    case Accept(c) => hide HeldBy, PositionOf;
    case Compare => hide HeldBy, PositionOf;
    case Decide => hide HeldBy, PositionOf;
    case CountUp => CountUpKeepsCounts(s);
    case AddWorker => AddWorkerKeepsCounts(s);
    case Register(c) =>
      StageKeepsCounts(s, c, Open);
      hide HeldBy, PositionOf;
    case Delete(c) =>
      if c in s.sockets {
        StageKeepsCounts(s, c, Leaving);
      }
      hide HeldBy, PositionOf;
    case CountDown(c) => CountDownKeepsCounts(s, c);
  }

  lemma PooledCounted(handed: map<Connection, Handed>, pool: seq<WorkerInfo>, k: nat, change: int)
    requires Pooled(handed, pool)
    ensures Pooled(handed, Counted(pool, k, change))
  {
    forall d | d in handed ensures PositionOf(Counted(pool, k, change), handed[d].worker) < |pool| {
      SamePositions(pool, k, change, handed[d].worker);
    }
    hide PositionOf;
  }

  lemma PooledMore(handed: map<Connection, Handed>, pool: seq<WorkerInfo>, added: WorkerInfo)
    requires Pooled(handed, pool)
    ensures Pooled(handed, pool + [added])
  {
    forall d | d in handed ensures PositionOf(pool + [added], handed[d].worker) <= |pool| {
      PositionGrows(pool, [added], handed[d].worker);
    }
    hide PositionOf;
  }

  /** Handing a connection to a worker of the pool, or moving it on. */
  lemma PooledHand(handed: map<Connection, Handed>, pool: seq<WorkerInfo>, k: nat, c: Connection, stage: Stage)
    requires Pooled(handed, pool) && k < |pool|
    ensures Pooled(handed[c := Handed(pool[k].worker, stage)], pool)
  {
    PositionFound(pool, k);
    hide PositionOf;
  }

  lemma StepKeepsPooled(s: State, e: Event)
    requires PoolOk(s) && LookOk(s) && Pooled(s.handed, s.pool) && Enabled(s, e)
    ensures Pooled(Apply(s, e).handed, Apply(s, e).pool)
  {
    hide Pooled, PoolOk, PositionOf;
    match e
    case Accept(c) =>
    case Compare =>
    case Decide =>
    case CountUp =>
      var k := s.accepting.best;
      PooledCounted(s.handed, s.pool, k, 1);
      PooledHand(s.handed, Counted(s.pool, k, 1), k, s.accepting.c, Waiting);
    case AddWorker =>
      var added := WorkerInfo(s.nextWorker, 1);
      PooledMore(s.handed, s.pool, added);
      PooledHand(s.handed, s.pool + [added], |s.pool|, s.accepting.c, Waiting);
    case Register(c) => PooledStage(s.handed, s.pool, c, Open);
    case Delete(c) => PooledStage(s.handed, s.pool, c, Leaving);
    case CountDown(c) =>
      PooledStage(s.handed, s.pool, c, Gone);
      PooledCounted(s.handed[c := s.handed[c].(stage := Gone)], s.pool, PositionOf(s.pool, s.handed[c].worker), -1);
  }

  lemma PooledStage(handed: map<Connection, Handed>, pool: seq<WorkerInfo>, c: Connection, stage: Stage)
    requires Pooled(handed, pool) && c in handed
    ensures Pooled(handed[c := handed[c].(stage := stage)], pool)
  {
    PooledHand(handed, pool, PositionOf(pool, handed[c].worker), c, stage);
    hide PositionOf;
  }

  lemma StepKeepsSockets(s: State, e: Event)
    requires PoolOk(s) && SocketsOk(s) && Enabled(s, e)
    ensures SocketsOk(Apply(s, e))
  {
    hide PositionOf, Counted;
  }

  lemma StepKeepsInv(s: State, e: Event)
    requires Inv(s) && Enabled(s, e)
    ensures Inv(Apply(s, e))
  {
    hide PoolOk, LookOk, CountsOk, Pooled, SocketsOk, ReleasedOk, Apply, Enabled;
    StepKeepsPool(s, e);
    StepKeepsLook(s, e);
    StepKeepsCounts(s, e);
    StepKeepsPooled(s, e);
    StepKeepsSockets(s, e);
    StepKeepsReleased(s, e);
  }

  lemma ReachableInv(s: State)
    requires Reachable(s)
    ensures Inv(s)
  {
    var init := Init(s.suggestedMax);
    var run :| Valid(Enabled, Apply, init, run) && After(Apply, init, run) == s;
    assert Inv(init);
    hide Inv, Enabled, Apply, Init;
    forall t: State, e: Event | Inv(t) && Enabled(t, e) ensures Inv(Apply(t, e)) {
      StepKeepsInv(t, e);
    }
    Invariant(Enabled, Apply, Inv, init, run);
  }

  // ---- Results ----

  /** A worker's count is the number of connections handed to it and not yet counted down; each is
      counted down once at most, however often its socket is deleted; and the pool keeps its limit. */
  lemma CountsAreConnections(s: State, i: nat, c: Connection)
    requires Reachable(s) && i < |s.pool|
    ensures s.pool[i].socketCount == |HeldBy(s.handed, s.pool[i].worker)|
    ensures multiset(s.released)[c] == if c in s.handed && s.handed[c].stage == Gone then 1 else 0
    ensures |s.pool| <= Limit(s.suggestedMax)
  {
    ReachableInv(s);
  }

  predicate EnabledNoAccept(s: State, e: Event) { Enabled(s, e) && !e.Accept? }

  /** If the server still looks, or counts, it is for `c`, and it began with the counts `start`. */
  predicate LooksFor(s: State, c: Connection, start: seq<int>) {
    s.accepting.Looking? || s.accepting.Counting? ==> s.accepting.c == c && s.accepting.start == start
  }

  lemma StepLooksFor(s: State, e: Event, c: Connection, start: seq<int>)
    requires Inv(s) && LooksFor(s, c, start) && EnabledNoAccept(s, e)
    ensures Inv(Apply(s, e)) && LooksFor(Apply(s, e), c, start)
  {
    StepKeepsInv(s, e);
    hide Inv, PositionOf;
  }

  /** However the counts go down while the server looks, the worker it is about to count the connection
      for has no more sockets than any worker had when it began to look. */
  lemma ChosenWasLeast(init: State, c: Connection, run: seq<Event>)
    requires Reachable(init) && Enabled(init, Accept(c))
    requires Valid(EnabledNoAccept, Apply, Apply(init, Accept(c)), run)
    ensures var s := After(Apply, Apply(init, Accept(c)), run);
            s.accepting.Counting? ==>
              && s.accepting.c == c && s.accepting.best < |s.pool| == |init.pool|
              && forall i :: 0 <= i < |init.pool| ==>
                   s.pool[s.accepting.best].socketCount <= init.pool[i].socketCount
  {
    hide *;
    var first, start := Apply(init, Accept(c)), Counts(init.pool);
    AcceptLooksFor(init, c);
    KeepsLookingFor(first, c, start, run);
    LooksForLeast(After(Apply, first, run), c, init.pool);
  }

  lemma AcceptLooksFor(init: State, c: Connection)
    requires Reachable(init) && Enabled(init, Accept(c))
    ensures Inv(Apply(init, Accept(c))) && LooksFor(Apply(init, Accept(c)), c, Counts(init.pool))
  {
    ReachableInv(init);
    StepKeepsInv(init, Accept(c));
    hide Inv, Reachable, Counts;
  }

  lemma KeepsLookingFor(s: State, c: Connection, start: seq<int>, run: seq<Event>)
    requires Inv(s) && LooksFor(s, c, start) && Valid(EnabledNoAccept, Apply, s, run)
    ensures Inv(After(Apply, s, run)) && LooksFor(After(Apply, s, run), c, start)
  {
    hide *;
    var inv := (t: State) => Inv(t) && LooksFor(t, c, start);
    forall t: State, e: Event | inv(t) && EnabledNoAccept(t, e) ensures inv(Apply(t, e)) {
      StepLooksFor(t, e, c, start);
    }
    Invariant(EnabledNoAccept, Apply, inv, s, run);
  }

  lemma LooksForLeast(s: State, c: Connection, pool: seq<WorkerInfo>)
    requires Inv(s) && LooksFor(s, c, Counts(pool))
    ensures s.accepting.Counting? ==>
              && s.accepting.c == c && s.accepting.best < |s.pool| == |pool|
              && forall i :: 0 <= i < |pool| ==> s.pool[s.accepting.best].socketCount <= pool[i].socketCount
  {
    assert LookOk(s);
    hide Inv;
    if s.accepting.Counting? {
      forall i | 0 <= i < |pool| ensures s.pool[s.accepting.best].socketCount <= pool[i].socketCount {
        assert s.accepting.start[i] == pool[i].socketCount;
      }
    }
  }

  /** Deleting a socket again changes nothing. */
  lemma DeleteTwice(s: State, c: Connection)
    requires Reachable(s) && Enabled(s, Delete(c))
    ensures var t := Apply(s, Delete(c)); Enabled(t, Delete(c)) && Apply(t, Delete(c)) == t
    ensures s.handed[c].stage != Open ==> Apply(s, Delete(c)) == s
  {
    ReachableInv(s);
  }

  /** No connection has left. */
  predicate EnabledNoLeaving(s: State, e: Event) { Enabled(s, e) && !e.Delete? && !e.CountDown? }

  /** Any two counts differ by at most one, and are one while there is room for more workers. */
  predicate Even(s: State) {
    && (forall i, j :: 0 <= i < |s.pool| && 0 <= j < |s.pool| ==> s.pool[i].socketCount <= s.pool[j].socketCount + 1)
    && (forall i :: 0 <= i < |s.pool| ==> s.pool[i].socketCount >= 1)
    && (|s.pool| < s.suggestedMax || s.accepting.Making? ==>
          forall i :: 0 <= i < |s.pool| ==> s.pool[i].socketCount == 1)
  }

  predicate LeastOf(pool: seq<WorkerInfo>, k: nat, n: nat) {
    k < n <= |pool| && forall i :: 0 <= i < n ==> pool[k].socketCount <= pool[i].socketCount
  }

  /** What the server found is the least it has looked at, and is taken only if the pool is full. */
  predicate LeastFound(s: State) {
    var a := s.accepting;
    && (a.Looking? ==> LeastOf(s.pool, a.best, a.next))
    && (a.Counting? ==> LeastOf(s.pool, a.best, |s.pool|) && |s.pool| >= s.suggestedMax)
  }

  predicate Level(s: State) { Even(s) && LeastFound(s) }

  lemma CountUpKeepsEven(s: State)
    requires Level(s) && s.accepting.Counting?
    ensures Even(Apply(s, CountUp))
  {
    var t, k := Apply(s, CountUp), s.accepting.best;
    assert |t.pool| == |s.pool| && t.pool[k].socketCount == s.pool[k].socketCount + 1;
    assert forall i :: 0 <= i < |s.pool| && i != k ==> t.pool[i] == s.pool[i];
  }

  lemma StepKeepsEven(s: State, e: Event)
    requires Level(s) && EnabledNoLeaving(s, e)
    ensures Even(Apply(s, e))
  {
    match e
    case CountUp => CountUpKeepsEven(s);
    case Accept(c) =>
    case Compare =>
    case Decide =>
    case AddWorker =>
    case Register(c) =>
  }

  lemma StepKeepsLeast(s: State, e: Event)
    requires Level(s) && EnabledNoLeaving(s, e)
    ensures LeastFound(Apply(s, e))
  {
  }

  lemma StepKeepsLevel(s: State, e: Event)
    requires Level(s) && EnabledNoLeaving(s, e)
    ensures Level(Apply(s, e))
  {
    hide Even, LeastFound, Apply;
    StepKeepsEven(s, e);
    StepKeepsLeast(s, e);
  }

  /** As long as no connection leaves, the load of any two workers differs by at most one. */
  lemma NoLeavingKeepsLevel(suggestedMax: int, run: seq<Event>, i: nat, j: nat)
    requires Valid(EnabledNoLeaving, Apply, Init(suggestedMax), run)
    requires var s := After(Apply, Init(suggestedMax), run); i < |s.pool| && j < |s.pool|
    ensures var s := After(Apply, Init(suggestedMax), run);
            s.pool[i].socketCount <= s.pool[j].socketCount + 1
  {
    forall t: State, e: Event | Level(t) && EnabledNoLeaving(t, e) ensures Level(Apply(t, e)) {
      StepKeepsLevel(t, e);
    }
    Invariant(EnabledNoLeaving, Apply, Level, Init(suggestedMax), run);
  }

  // ---- Accepting with nothing else happening ----

  /** Going through the rest of the pool finds its least loaded worker. */
  lemma {:induction false} LookOn(s: State) returns (run: seq<Event>)
    requires s.accepting.Looking? && 1 <= s.accepting.next <= |s.pool|
    requires s.accepting.best == LeastLoaded(s.pool[..s.accepting.next])
    ensures Valid(Enabled, Apply, s, run)
    ensures After(Apply, s, run) == s.(accepting := s.accepting.(best := LeastLoaded(s.pool), next := |s.pool|))
    decreases |s.pool| - s.accepting.next
  {
    var n := s.accepting.next;
    if n == |s.pool| {
      assert s.pool[..n] == s.pool;
      run := [];
    } else {
      assert s.pool[..n + 1][..n] == s.pool[..n];
      var t := Apply(s, Compare);
      assert t.accepting.best == LeastLoaded(s.pool[..n + 1]);
      var rest := LookOn(t);
      Cons(Enabled, Apply, s, Compare, rest);
      run := [Compare] + rest;
    }
  }

  /** The steps of accepting a connection, one after the other. */
  lemma AcceptAtOnce(s: State, c: Connection) returns (run: seq<Event>)
    requires Enabled(s, Accept(c))
    ensures Valid(Enabled, Apply, s, [Accept(c)] + run) && After(Apply, s, [Accept(c)] + run) == Accepted(s, c)
  {
    if s.pool == [] {
      run := [AddWorker];
      TwoSteps(s, Accept(c), AddWorker);
      assert [Accept(c)] + [AddWorker] == [Accept(c), AddWorker];
    } else {
      var t := Apply(s, Accept(c));
      assert s.pool[..1] == [s.pool[0]];
      var look := LookOn(t);
      var u := t.(accepting := t.accepting.(best := LeastLoaded(s.pool), next := |s.pool|));
      var last := DecideAndHand(s, u, c);
      hide Apply, Enabled, Accepted;
      TwoSteps(u, Decide, last);
      Concat(Enabled, Apply, t, look, [Decide, last]);
      run := look + [Decide, last];
      Cons(Enabled, Apply, s, Accept(c), run);
    }
  }

  lemma TwoSteps(s: State, first: Event, second: Event)
    requires Enabled(s, first) && Enabled(Apply(s, first), second)
    ensures Valid(Enabled, Apply, s, [first, second])
    ensures After(Apply, s, [first, second]) == Apply(Apply(s, first), second)
  {
    hide Enabled, Apply;
    assert [] + [first] == [first] && [first] + [second] == [first, second];
    Extend(Enabled, Apply, s, [], first);
    Extend(Enabled, Apply, s, [first], second);
  }

  lemma DecideAndHand(s: State, u: State, c: Connection) returns (last: Event)
    requires s.accepting.Idle? && s.pool != []
    requires u == s.(accepting := Looking(c, LeastLoaded(s.pool), |s.pool|, Counts(s.pool)))
    ensures Enabled(u, Decide) && Enabled(Apply(u, Decide), last) && Apply(Apply(u, Decide), last) == Accepted(s, c)
  {
    hide LeastLoaded, Counts;
    last := if Apply(u, Decide).accepting.Making? then AddWorker else CountUp;
  }

  predicate SomeIdle(pool: seq<WorkerInfo>) { exists i :: 0 <= i < |pool| && pool[i].socketCount == 0 }

  predicate IsLeast(pool: seq<WorkerInfo>, k: nat) {
    k < |pool| && forall i :: 0 <= i < |pool| ==> pool[k].socketCount <= pool[i].socketCount
  }

  /** One connection more, counted for the worker at `k` and no other. */
  predicate TakenBy(s: State, t: State, c: Connection, k: nat) {
    k < |s.pool| && t == s.(
      handed := s.handed[c := Handed(s.pool[k].worker, Waiting)],
      pool := s.pool[k := WorkerInfo(s.pool[k].worker, s.pool[k].socketCount + 1)])
  }

  /** One worker more, with this connection only. */
  predicate TakenByNew(s: State, t: State, c: Connection) {
    t == s.(
      handed := s.handed[c := Handed(s.nextWorker, Waiting)],
      pool := s.pool + [WorkerInfo(s.nextWorker, 1)],
      nextWorker := s.nextWorker + 1)
  }

  /** Accepting takes a worker with the fewest sockets if one is idle or the pool is full, and counts the
      connection for it alone; otherwise it adds a new worker with this one connection. */
  lemma AcceptedMeans(s: State, c: Connection) returns (k: nat)
    requires Inv(s) && Enabled(s, Accept(c))
    ensures var t := Accepted(s, c);
            if s.pool != [] && (|s.pool| >= s.suggestedMax || SomeIdle(s.pool)) then IsLeast(s.pool, k) && TakenBy(s, t, c, k)
            else TakenByNew(s, t, c)
  {
    LeastIsIdle(s);
    hide Inv, LeastLoaded, IsLeast, SomeIdle;
    k := if s.pool == [] then 0 else LeastLoaded(s.pool);
  }

  lemma LeastIsIdle(s: State)
    requires Inv(s)
    ensures s.pool != [] ==>
              var k := LeastLoaded(s.pool);
              IsLeast(s.pool, k) && (SomeIdle(s.pool) <==> s.pool[k].socketCount == 0)
  {
    assert CountsOk(s);
    hide Inv, HeldBy;
    assert forall i :: 0 <= i < |s.pool| ==> s.pool[i].socketCount >= 0;
    hide LeastLoaded;
  }

  /** Looking ends with the worker found if it is idle then, or the pool is full, and with a new worker
      otherwise. */
  lemma DecideTakesIdle(s: State)
    requires Reachable(s) && Enabled(s, Decide)
    ensures s.accepting.best < |s.pool|
    ensures var idle := s.pool[s.accepting.best].socketCount == 0;
            var t := Apply(s, Decide);
            && (t.accepting.Counting? <==> idle || |s.pool| >= s.suggestedMax)
            && (t.accepting.Making? <==> !idle && |s.pool| < s.suggestedMax)
            && t.accepting.c == s.accepting.c && (t.accepting.Counting? ==> t.accepting.best == s.accepting.best)
  {
    ReachableInv(s);
  }

  // ---- The server ----

  class Server {
    var threadPool: seq<WorkerInfo>
    var sockets: set<Connection>
    var suggestedMax: int
    var nextWorker: WorkerId
    ghost var accepting: Accepting
    ghost var handed: map<Connection, Handed>
    ghost var released: seq<Connection>

    ghost function View(): State
      reads this
    {
      State(threadPool, sockets, suggestedMax, nextWorker, accepting, handed, released)
    }

    constructor (suggestedMax: int)
      ensures View() == Init(suggestedMax)
    {
      threadPool, sockets, nextWorker := [], {}, 0;
      this.suggestedMax := suggestedMax;
      accepting, handed, released := Idle, map[], [];
    }

    /** The position of the first worker with the smallest count. */
    method MinElement() returns (k: nat)
      requires threadPool != []
      ensures k == LeastLoaded(threadPool)
    {
      k := 0;
      var i := 1;
      while i < |threadPool|
        invariant 1 <= i <= |threadPool| && k == LeastLoaded(threadPool[..i])
      {
        assert threadPool[..i + 1][..i] == threadPool[..i];
        if threadPool[i].socketCount < threadPool[k].socketCount {
          k := i;
        }
        i := i + 1;
      }
      assert threadPool[..i] == threadPool;
    }

    /** A connection goes to the least loaded worker if that one is idle or the pool is full, and to a
        new worker otherwise. What other threads do meanwhile is in the state machine. */
    method IncomingConnection(c: Connection) returns (worker: WorkerId)
      requires Enabled(View(), Accept(c))
      modifies this
      ensures View() == Accepted(old(View()), c)
      ensures c in handed && handed[c] == Handed(worker, Waiting)
    {
      var found := false;
      worker := nextWorker;
      if threadPool != [] {
        var k := MinElement();
        if threadPool[k].socketCount == 0 || |threadPool| >= suggestedMax {
          worker, found := threadPool[k].worker, true;
          threadPool := threadPool[k := threadPool[k].(socketCount := threadPool[k].socketCount + 1)];
        }
      }
      if !found {
        nextWorker := nextWorker + 1;
        threadPool := threadPool + [WorkerInfo(worker, 1)];
      }
      handed := handed[c := Handed(worker, Waiting)];
    }

    method RegisterSocket(c: Connection)
      requires Enabled(View(), Register(c))
      modifies this
      ensures View() == Apply(old(View()), Register(c))
    {
      sockets := sockets + {c};
      handed := handed[c := handed[c].(stage := Open)];
    }

    /** The position of a worker in the pool. */
    method FindIf(worker: WorkerId) returns (k: nat)
      ensures k == PositionOf(threadPool, worker)
    {
      k := 0;
      while k < |threadPool| && threadPool[k].worker != worker
        invariant k <= |threadPool| && k + PositionOf(threadPool[k..], worker) == PositionOf(threadPool, worker)
      {
        k := k + 1;
      }
    }

    /** Counts a socket out once, when it is still registered. */
    method DeleteSocket(c: Connection, worker: WorkerId)
      requires Inv(View()) && Enabled(View(), Delete(c)) && handed[c].worker == worker
      modifies this
      ensures c !in old(sockets) ==> View() == old(View())
      ensures c in old(sockets) ==>
                var deleted := Apply(old(View()), Delete(c));
                Enabled(deleted, CountDown(c)) && View() == Apply(deleted, CountDown(c))
    {
      hide Apply, Inv, Enabled, PositionOf, Counted;
      if c !in sockets {
        return;
      }
      FoundInPool(View(), c);
      DeleteThenCount(View(), c);
      CountedAt(threadPool, PositionOf(threadPool, worker), -1);
      sockets := sockets - {c};
      var k := FindIf(worker);
      if k < |threadPool| {
        threadPool := threadPool[k := threadPool[k].(socketCount := threadPool[k].socketCount - 1)];
      }
      handed := handed[c := Handed(worker, Gone)];
      released := released + [c];
    }
  }

  lemma FoundInPool(s: State, c: Connection)
    requires Inv(s) && Enabled(s, Delete(c))
    ensures c in s.handed && PositionOf(s.pool, s.handed[c].worker) < |s.pool|
  {
  }

  lemma CountedAt(pool: seq<WorkerInfo>, k: nat, change: int)
    requires k < |pool|
    ensures Counted(pool, k, change) == pool[k := pool[k].(socketCount := pool[k].socketCount + change)]
  {
  }

  lemma DeleteThenCount(s: State, c: Connection)
    requires c in s.sockets && c in s.handed
    ensures var deleted := Apply(s, Delete(c));
            && Enabled(deleted, CountDown(c))
            && Apply(deleted, CountDown(c)) ==
               s.(sockets := s.sockets - {c}, handed := s.handed[c := Handed(s.handed[c].worker, Gone)],
                  pool := Counted(s.pool, PositionOf(s.pool, s.handed[c].worker), -1), released := s.released + [c])
  {
    var deleted := Apply(s, Delete(c));
    assert deleted.handed[c := Handed(s.handed[c].worker, Gone)] == s.handed[c := Handed(s.handed[c].worker, Gone)];
    hide PositionOf, Counted;
  }
}
