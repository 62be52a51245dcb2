/** The per-host request queue: at most LIMIT requests of one non-empty host are unfinished at a time.
    Requests are added from any thread; picking, sending, skipping and finishing happen on the
    network thread, where client handlers may add requests and so re-enter the scheduler. */
module NetworkScheduler {
  import opened Runs
  import Text

  /** A queued request; `id` is its place in the order of addition. */
  datatype Request = Request(id: nat, host: string)

  type Queue = seq<Request>
  type Usages = map<string, int>

  const LIMIT := 6

  function Usage(usages: Usages, host: string): int {
    if host in usages then usages[host] else 0
  }

  predicate Free(usages: Usages, r: Request) { Usage(usages, r.host) < LIMIT }

  /** The first queued request whose host has a free slot, or -1. */
  function FirstFree(queue: Queue, usages: Usages): (k: int)
    ensures -1 <= k < |queue|
    ensures 0 <= k ==> Free(usages, queue[k])
    ensures forall i :: 0 <= i < |queue| && (k == -1 || i < k) ==> !Free(usages, queue[i])
  {
    if queue == [] then -1
    else if Free(usages, queue[0]) then 0
    else
      var k := FirstFree(queue[1..], usages);
      assert forall i :: 1 <= i < |queue| ==> queue[i] == queue[1..][i - 1];
      if k == -1 then -1 else k + 1
  }

  function Without(queue: Queue, k: nat): Queue
    requires k < |queue|
  {
    queue[..k] + queue[k + 1..]
  }

  /** The scan reads the counters through the inserting index operator: every host looked at gets
      an entry. */
  function Touch(usages: Usages, scanned: Queue): (t: Usages)
    ensures forall h :: Usage(t, h) == Usage(usages, h)
  {
    map h | h in usages.Keys + (set r | r in scanned :: r.host) :: Usage(usages, h)
  }

  function Scanned(queue: Queue, k: int): Queue {
    if 0 <= k < |queue| then queue[..k + 1] else queue
  }

  function Increase(usages: Usages, host: string): Usages {
    if host == "" then usages else usages[host := Usage(usages, host) + 1]
  }

  function Decrease(usages: Usages, host: string): Usages {
    if host == "" then usages
    else if Usage(usages, host) - 1 <= 0 then usages - {host}
    else usages[host := Usage(usages, host) - 1]
  }

  function PickUsages(queue: Queue, usages: Usages): Usages {
    var k := FirstFree(queue, usages);
    var touched := Touch(usages, Scanned(queue, k));
    if k == -1 then touched else Increase(touched, queue[k].host)
  }

  // ---- All interleavings ----

  /** One activation of schedule() on the network thread's stack: at its loop head, about to run a
      picked candidate, or inside the handlers a sent candidate called. */
  datatype Frame = Scanning | Candidate(request: Request) | Handlers

  /** The queue and counters, the network thread's stack, threads between their append and their
      call of schedule(), queued calls of schedule(), and the history of every request. */
  datatype State = State(
    queue: Queue,
    usages: Usages,
    frames: seq<Frame>,
    appending: nat,
    pending: nat,
    cancelled: set<nat>,
    added: Queue,
    picked: Queue,
    sent: set<Request>,
    released: Queue)

  const INIT := State([], map[], [], 0, 0, {}, [], [], {}, [])

  /** Signal is any of a reply's finished, error and SSL error signals: the first one fills the
      promise of its end, the others find it filled. */
  datatype Event =
    | AddElsewhere(host: string)
    | PostSchedule
    | DeliverSchedule
    | AddOnNetworkThread(host: string)
    | Pick
    | Leave
    | Skip
    | Send
    | HandlersDone
    | Signal(request: Request)
    | Cancel(id: nat)

  predicate TopIs(s: State, f: Frame) { s.frames != [] && s.frames[|s.frames| - 1] == f }

  predicate TopIsCandidate(s: State) { s.frames != [] && s.frames[|s.frames| - 1].Candidate? }

  /** Where the network thread takes events or runs client code. */
  predicate Open(s: State) { s.frames == [] || TopIs(s, Handlers) }

  function Top(s: State): Request
    requires TopIsCandidate(s)
  {
    s.frames[|s.frames| - 1].request
  }

  predicate Enabled(s: State, e: Event) {
    match e
    case AddElsewhere(_) => true
    case PostSchedule => s.appending > 0
    case DeliverSchedule => s.pending > 0 && Open(s)
    case AddOnNetworkThread(_) => Open(s)
    case Pick => TopIs(s, Scanning) && FirstFree(s.queue, s.usages) != -1
    case Leave => TopIs(s, Scanning) && FirstFree(s.queue, s.usages) == -1
    case Skip => TopIsCandidate(s) && Top(s).id in s.cancelled
    case Send => TopIsCandidate(s) && Top(s).id !in s.cancelled
    case HandlersDone => TopIs(s, Handlers)
    case Signal(r) => Open(s) && r in s.sent
    case Cancel(id) => id < |s.added|
  }

  function Append(s: State, host: string): State {
    var r := Request(|s.added|, host);
    s.(queue := s.queue + [r], added := s.added + [r])
  }

  function Push(s: State, f: Frame): State { s.(frames := s.frames + [f]) }

  function Pop(s: State): State {
    if s.frames == [] then s else s.(frames := s.frames[..|s.frames| - 1])
  }

  function Release(s: State, r: Request): State {
    s.(usages := Decrease(s.usages, r.host), released := s.released + [r])
  }

  function Apply(s: State, e: Event): State {
    match e
    case AddElsewhere(host) => Append(s, host).(appending := s.appending + 1)
    case PostSchedule => if s.appending > 0 then s.(appending := s.appending - 1, pending := s.pending + 1) else s
    case DeliverSchedule => if s.pending > 0 then Push(s, Scanning).(pending := s.pending - 1) else s
    case AddOnNetworkThread(host) => Push(Append(s, host), Scanning)
    case Pick =>
      var k := FirstFree(s.queue, s.usages);
      if k == -1 then s
      else Push(Pop(s), Candidate(s.queue[k])).(
        queue := Without(s.queue, k),
        usages := PickUsages(s.queue, s.usages),
        picked := s.picked + [s.queue[k]])
    case Leave => Pop(s).(usages := PickUsages(s.queue, s.usages))
    case Skip => if TopIsCandidate(s) then Release(Push(Pop(s), Scanning), Top(s)) else s
    case Send => if TopIsCandidate(s) then Push(Pop(s), Handlers).(sent := s.sent + {Top(s)}) else s
    case HandlersDone => Push(Pop(s), Scanning)
    case Signal(r) => if r in s.released then s else Push(Release(s, r), Scanning)
    case Cancel(id) => s.(cancelled := s.cancelled + {id})
  }

  ghost predicate Reachable(s: State) {
    exists run :: Valid(Enabled, Apply, INIT, run) && After(Apply, INIT, run) == s
  }

  // ---- Accounting ----

  /** The picked requests of a host whose slot has not been given back. */
  function Unfinished(s: State, host: string): set<Request> {
    set r | r in s.picked && r !in s.released && r.host == host
  }

  /** Only the newest activation can hold a candidate. */
  predicate StackOk(s: State) {
    forall i :: 0 <= i < |s.frames| - 1 ==> s.frames[i] == Handlers
  }

  predicate HistoryOk(s: State) {
    && (forall i :: 0 <= i < |s.added| ==> s.added[i].id == i)
    && (forall r :: r in s.queue ==> r in s.added && r !in s.picked)
    && (forall r :: r in s.picked ==> r in s.added)
    && (forall i, j :: 0 <= i < j < |s.queue| ==> s.queue[i] != s.queue[j])
    && (forall i, j :: 0 <= i < j < |s.picked| ==> s.picked[i] != s.picked[j])
    && (forall r :: r in s.added ==> r in s.queue || r in s.picked)
  }

  /** Every picked request is the candidate, unanswered or released; released ones once. */
  predicate ReleaseOk(s: State) {
    && (forall r :: r in s.released ==> r in s.picked)
    && (forall i, j :: 0 <= i < j < |s.released| ==> s.released[i] != s.released[j])
    && (forall r :: r in s.sent ==> r in s.picked)
    && (TopIsCandidate(s) ==> Top(s) in s.picked && Top(s) !in s.sent && Top(s) !in s.released)
    && (forall r :: r in s.picked ==> r in s.sent || r in s.released || (TopIsCandidate(s) && r == Top(s)))
    && (forall r :: r in s.released ==> r in s.sent || r.id in s.cancelled)
  }

  ghost predicate UsageOk(s: State) {
    && Usage(s.usages, "") == 0
    && forall h :: h != "" ==> Usage(s.usages, h) == |Unfinished(s, h)| <= LIMIT
  }

  function ForHost(queue: Queue, host: string): Queue {
    if queue == [] then []
    else
      var r := queue[|queue| - 1];
      ForHost(queue[..|queue| - 1], host) + (if r.host == host then [r] else [])
  }

  /** Requests of one host are picked in the order they were added. */
  ghost predicate OrderOk(s: State) {
    forall h :: ForHost(s.picked, h) + ForHost(s.queue, h) == ForHost(s.added, h)
  }

  /** A request that could go out is never left without a scan to come. */
  predicate WakeUpOk(s: State) {
    s.frames == [] && s.pending == 0 && s.appending == 0 ==> FirstFree(s.queue, s.usages) == -1
  }

  ghost predicate Inv(s: State) {
    StackOk(s) && HistoryOk(s) && ReleaseOk(s) && UsageOk(s) && OrderOk(s) && WakeUpOk(s)
  }

  // ---- What each step does to the parts ----

  lemma WithoutContents(queue: Queue, k: nat)
    requires k < |queue|
    requires forall i, j :: 0 <= i < j < |queue| ==> queue[i] != queue[j]
    ensures forall r :: r in Without(queue, k) <==> r in queue && r != queue[k]
    ensures forall i, j :: 0 <= i < j < |queue| - 1 ==> Without(queue, k)[i] != Without(queue, k)[j]
  {
    var w := Without(queue, k);
    forall r | r in queue && r != queue[k] ensures r in w {
      var i :| 0 <= i < |queue| && queue[i] == r;
      assert r == if i < k then w[i] else w[i - 1];
    }
  }

  lemma AppendKeepsHistory(s: State, host: string)
    requires HistoryOk(s)
    ensures HistoryOk(Append(s, host))
  {
    var r := Request(|s.added|, host);
    assert r !in s.added;
  }

  lemma PickKeepsHistory(s: State)
    requires HistoryOk(s) && Enabled(s, Pick)
    ensures HistoryOk(Apply(s, Pick))
  {
    var k := FirstFree(s.queue, s.usages);
    WithoutContents(s.queue, k);
    assert s.queue[k] in s.queue;
  }

  lemma FirstFreeSame(queue: Queue, u: Usages, v: Usages)
    requires forall h :: Usage(u, h) == Usage(v, h)
    ensures FirstFree(queue, u) == FirstFree(queue, v)
  {
  }

  lemma PickCountsSlot(queue: Queue, usages: Usages, h: string)
    requires FirstFree(queue, usages) != -1
    ensures var host := queue[FirstFree(queue, usages)].host;
            Usage(PickUsages(queue, usages), h) == Usage(usages, h) + (if h == host && h != "" then 1 else 0)
  {
  }

  lemma UnfinishedGains(s: State, t: State, r: Request, h: string)
    requires r !in s.picked && r !in s.released && t.picked == s.picked + [r] && t.released == s.released
    ensures |Unfinished(t, h)| == |Unfinished(s, h)| + (if h == r.host then 1 else 0)
  {
    if h == r.host {
      assert Unfinished(t, h) == Unfinished(s, h) + {r};
    } else {
      assert Unfinished(t, h) == Unfinished(s, h);
    }
  }

  /** One more picked request, one more slot of its host. */
  lemma OneMoreUnfinished(s: State, t: State, r: Request)
    requires UsageOk(s) && Free(s.usages, r)
    requires r !in s.picked && r !in s.released && t.picked == s.picked + [r] && t.released == s.released
    requires forall h :: Usage(t.usages, h) == Usage(s.usages, h) + (if h == r.host && h != "" then 1 else 0)
    ensures UsageOk(t)
  {
    forall h | h != "" ensures Usage(t.usages, h) == |Unfinished(t, h)| <= LIMIT {
      UnfinishedGains(s, t, r, h);
    }
  }

  lemma PickKeepsUsage(s: State)
    requires UsageOk(s) && HistoryOk(s) && ReleaseOk(s) && Enabled(s, Pick)
    ensures UsageOk(Apply(s, Pick))
  {
    var k := FirstFree(s.queue, s.usages);
    assert s.queue[k] in s.queue;
    hide UsageOk, FirstFree, PickUsages, Without;
    forall h ensures Usage(PickUsages(s.queue, s.usages), h) ==
                     Usage(s.usages, h) + (if h == s.queue[k].host && h != "" then 1 else 0) {
      PickCountsSlot(s.queue, s.usages, h);
    }
    OneMoreUnfinished(s, Apply(s, Pick), s.queue[k]);
  }

  lemma ReleaseKeepsUsage(s: State, r: Request)
    requires UsageOk(s) && r in s.picked && r !in s.released
    ensures UsageOk(Release(s, r))
  {
    var s' := Release(s, r);
    assert r in Unfinished(s, r.host);
    forall h | h != "" ensures Usage(s'.usages, h) == |Unfinished(s', h)| <= LIMIT {
      if h == r.host {
        assert Unfinished(s', h) == Unfinished(s, h) - {r};
      } else {
        assert Unfinished(s', h) == Unfinished(s, h);
      }
    }
  }

  lemma SameUnfinished(s: State, t: State)
    requires UsageOk(s) && t.picked == s.picked && t.released == s.released
    requires forall h :: Usage(t.usages, h) == Usage(s.usages, h)
    ensures UsageOk(t)
  {
    forall h | h != "" ensures Usage(t.usages, h) == |Unfinished(t, h)| <= LIMIT {
      assert Unfinished(t, h) == Unfinished(s, h);
    }
  }

  lemma ForHostAppend(queue: Queue, r: Request, h: string)
    ensures ForHost(queue + [r], h) == ForHost(queue, h) + (if r.host == h then [r] else [])
  {
    assert (queue + [r])[..|queue|] == queue;
  }

  lemma WithoutLast(queue: Queue, k: nat)
    requires k < |queue|
    ensures var n := |queue| - 1;
            Without(queue, k) == if k == n then queue[..n] else Without(queue[..n], k) + [queue[n]]
  {
  }

  /** Taking out a host's first request takes it off the front of that host's requests. */
  lemma {:induction false} ForHostWithout(queue: Queue, k: nat, h: string)
    requires k < |queue|
    requires forall i :: 0 <= i < k ==> queue[i].host != queue[k].host
    ensures ForHost(queue, h) == (if queue[k].host == h then [queue[k]] else []) + ForHost(Without(queue, k), h)
  {
    var n := |queue| - 1;
    WithoutLast(queue, k);
    hide Without;
    if k == n {
      if queue[k].host == h {
        NoneForHost(queue[..n], h);
      }
    } else {
      var front := if queue[k].host == h then [queue[k]] else [];
      var rest := Without(queue[..n], k);
      ForHostWithout(queue[..n], k, h);
      ForHostAppend(rest, queue[n], h);
      Text.Assoc(front, ForHost(rest, h), if queue[n].host == h then [queue[n]] else []);
    }
  }

  lemma {:induction false} NoneForHost(queue: Queue, h: string)
    requires forall i :: 0 <= i < |queue| ==> queue[i].host != h
    ensures ForHost(queue, h) == []
  {
    if queue != [] {
      NoneForHost(queue[..|queue| - 1], h);
    }
  }

  lemma AppendKeepsOrder(s: State, host: string)
    requires OrderOk(s)
    ensures OrderOk(Append(s, host))
  {
    var r := Request(|s.added|, host);
    var s' := Append(s, host);
    forall h ensures ForHost(s'.picked, h) + ForHost(s'.queue, h) == ForHost(s'.added, h) {
      ForHostAppend(s.queue, r, h);
      ForHostAppend(s.added, r, h);
      assert ForHost(s.picked, h) + ForHost(s.queue, h) == ForHost(s.added, h);
    }
  }

  lemma MoveToPicked(queue: Queue, k: nat, picked: Queue, h: string)
    requires k < |queue|
    requires forall i :: 0 <= i < k ==> queue[i].host != queue[k].host
    ensures ForHost(picked + [queue[k]], h) + ForHost(Without(queue, k), h) == ForHost(picked, h) + ForHost(queue, h)
  {
    hide Without, ForHost;
    var moved := if queue[k].host == h then [queue[k]] else [];
    ForHostWithout(queue, k, h);
    ForHostAppend(picked, queue[k], h);
    Text.Assoc(ForHost(picked, h), moved, ForHost(Without(queue, k), h));
  }

  lemma PickKeepsOrder(s: State)
    requires OrderOk(s) && Enabled(s, Pick)
    ensures OrderOk(Apply(s, Pick))
  {
    var k := FirstFree(s.queue, s.usages);
    var s' := Apply(s, Pick);
    assert s'.picked == s.picked + [s.queue[k]] && s'.queue == Without(s.queue, k) && s'.added == s.added;
    assert forall i :: 0 <= i < k ==> s.queue[i].host != s.queue[k].host;
    hide Apply, FirstFree, Without, ForHost;
    forall h ensures ForHost(s'.picked, h) + ForHost(s'.queue, h) == ForHost(s.picked, h) + ForHost(s.queue, h) {
      MoveToPicked(s.queue, k, s.picked, h);
    }
  }

  // ---- Safety over all runs ----

  lemma StepKeepsInv(s: State, e: Event)
    requires Inv(s) && Enabled(s, e)
    ensures Inv(Apply(s, e))
  {
    match e
    case AddElsewhere(host) => AddKeepsInv(s, e, host);
    case AddOnNetworkThread(host) => AddKeepsInv(s, e, host);
    case Pick => PickKeepsInv(s);
    case Leave => LeaveKeepsInv(s);
    case Skip => ReleaseKeepsInv(s, Top(s), e);
    case Signal(r) => if r !in s.released { ReleaseKeepsInv(s, r, e); }
    case Send => SendKeepsInv(s);
    case _ => SameUnfinished(s, Apply(s, e));
  }

  lemma AddKeepsInv(s: State, e: Event, host: string)
    requires Inv(s) && Enabled(s, e) && (e == AddElsewhere(host) || e == AddOnNetworkThread(host))
    ensures Inv(Apply(s, e))
  {
    AppendKeepsHistory(s, host);
    AppendKeepsOrder(s, host);
    SameUnfinished(s, Apply(s, e));
  }

  lemma PickKeepsInv(s: State)
    requires Inv(s) && Enabled(s, Pick)
    ensures Inv(Apply(s, Pick))
  {
    var s' := Apply(s, Pick);
    var r := s.queue[FirstFree(s.queue, s.usages)];
    assert r in s.queue;
    PickKeepsHistory(s);
    PickKeepsUsage(s);
    PickKeepsOrder(s);
    assert Top(s') == r;
  }

  lemma LeaveKeepsInv(s: State)
    requires Inv(s) && Enabled(s, Leave)
    ensures Inv(Apply(s, Leave))
  {
    var s' := Apply(s, Leave);
    SameUnfinished(s, s');
    FirstFreeSame(s.queue, s.usages, s'.usages);
  }

  lemma ReleaseKeepsInv(s: State, r: Request, e: Event)
    requires Inv(s) && Enabled(s, e) && r !in s.released
    requires e == Signal(r) || (e == Skip && r == Top(s))
    ensures Inv(Apply(s, e))
  {
    ReleaseKeepsUsage(s, r);
    SameUnfinished(Release(s, r), Apply(s, e));
  }

  lemma SendKeepsInv(s: State)
    requires Inv(s) && Enabled(s, Send)
    ensures Inv(Apply(s, Send))
  {
    SameUnfinished(s, Apply(s, Send));
  }

  lemma InitInv()
    ensures Inv(INIT)
  {
  }

  /** The invariant holds after every interleaving. */
  lemma ReachableInv(s: State)
    requires Reachable(s)
    ensures Inv(s)
  {
    var run :| Valid(Enabled, Apply, INIT, run) && After(Apply, INIT, run) == s;
    InitInv();
    hide Inv, Enabled, Apply;
    forall t: State, e: Event | Inv(t) && Enabled(t, e) ensures Inv(Apply(t, e)) {
      StepKeepsInv(t, e);
    }
    Invariant(Enabled, Apply, Inv, INIT, run);
  }

  /** Sent requests whose reply has not answered. */
  function InFlight(s: State, host: string): set<Request> {
    set r | r in s.sent && r !in s.released && r.host == host
  }

  /** Slot accounting: a non-empty host's counter is the number of its requests picked and neither
      skipped nor answered, between 0 and 6; every picked request is just one of the candidate
      about to be sent or skipped, in flight, and released; and each releases at most once. */
  lemma SlotAccounting(s: State)
    requires Reachable(s)
    ensures forall r :: r in s.picked <==>
              (TopIsCandidate(s) && r == Top(s)) || (r in s.sent && r !in s.released) || r in s.released
    ensures TopIsCandidate(s) ==> Top(s) !in s.sent && Top(s) !in s.released
    ensures forall h :: h != "" ==> Usage(s.usages, h) == |Unfinished(s, h)| <= 6
    ensures forall i, j :: 0 <= i < j < |s.released| ==> s.released[i] != s.released[j]
    ensures forall r :: r in s.released ==> r in s.picked
    ensures forall r :: r in s.released ==> r in s.sent || r.id in s.cancelled
  {
    ReachableInv(s);
  }

  // ---- What was asked for and what was done ----

  function HostAdded(e: Event): seq<string> { if IsArrival(e) then [e.host] else [] }

  /** The hosts of all additions, in order. */
  function HostsAdded(run: seq<Event>): seq<string> {
    if run == [] then [] else HostsAdded(run[..|run| - 1]) + HostAdded(run[|run| - 1])
  }

  /** The requests added are those asked for, numbered in the order of addition. */
  lemma {:induction false} AddedAsAsked(run: seq<Event>)
    ensures var added, hosts := After(Apply, INIT, run).added, HostsAdded(run);
            |added| == |hosts| && forall i :: 0 <= i < |added| ==> added[i] == Request(i, hosts[i])
  {
    hide Apply;
    if run != [] {
      var n := |run| - 1;
      AddedAsAsked(run[..n]);
      StepRecords(After(Apply, INIT, run[..n]), run[n]);
    }
  }

  lemma StepRecords(s: State, e: Event)
    ensures var t := Apply(s, e);
            && t.added == s.added + (if IsArrival(e) then [Request(|s.added|, e.host)] else [])
            && t.cancelled == s.cancelled + (if e.Cancel? then {e.id} else {})
  {
    hide PickUsages, FirstFree, Decrease;
  }

  /** Exactly the requests whose cancellation was asked for are cancelled. */
  lemma {:induction false} CancelledAsAsked(run: seq<Event>, id: nat)
    ensures id in After(Apply, INIT, run).cancelled <==> Cancel(id) in run
  {
    if run != [] {
      var n := |run| - 1;
      hide Apply;
      CancelledAsAsked(run[..n], id);
      StepRecords(After(Apply, INIT, run[..n]), run[n]);
      assert run == run[..n] + [run[n]];
    }
  }

  /** Event `i` of the run sends the request, which has been picked and not been cancelled before. */
  ghost predicate SendsAt(run: seq<Event>, i: nat, r: Request) {
    i < |run| && run[i] == Send && Cancel(r.id) !in run[..i] &&
    var s := After(Apply, INIT, run[..i]);
    TopIsCandidate(s) && Top(s) == r && r in s.picked
  }

  lemma SendsAtBefore(run: seq<Event>, e: Event, i: nat, r: Request)
    requires SendsAt(run, i, r)
    ensures SendsAt(run + [e], i, r)
  {
    assert (run + [e])[..i] == run[..i];
  }

  lemma StepSends(run: seq<Event>, e: Event, r: Request)
    requires Valid(Enabled, Apply, INIT, run) && Enabled(After(Apply, INIT, run), e)
    requires r in Apply(After(Apply, INIT, run), e).sent && r !in After(Apply, INIT, run).sent
    ensures SendsAt(run + [e], |run|, r)
  {
    var s := After(Apply, INIT, run);
    assert Reachable(s);
    assert (run + [e])[..|run|] == run;
    hide *;
    ReachableInv(s);
    CancelledAsAsked(run, r.id);
    OnlySendSends(s, e, r);
    SendsHere(run + [e], |run|, r);
  }

  lemma OnlySendSends(s: State, e: Event, r: Request)
    requires Inv(s) && Enabled(s, e) && r in Apply(s, e).sent && r !in s.sent
    ensures e == Send && TopIsCandidate(s) && Top(s) == r && r in s.picked && r.id !in s.cancelled
  {
    hide PickUsages, FirstFree, Decrease, HistoryOk, UsageOk, OrderOk, WakeUpOk;
  }

  lemma SendsHere(run: seq<Event>, i: nat, r: Request)
    requires i < |run| && run[i] == Send && Cancel(r.id) !in run[..i]
    requires var s := After(Apply, INIT, run[..i]); TopIsCandidate(s) && Top(s) == r && r in s.picked
    ensures SendsAt(run, i, r)
  {
  }

  /** A request is sent only at a moment when it was not cancelled. */
  lemma {:induction false} SentIfNotCancelled(run: seq<Event>, r: Request) returns (i: nat)
    requires Valid(Enabled, Apply, INIT, run) && r in After(Apply, INIT, run).sent
    ensures SendsAt(run, i, r)
  {
    hide Enabled, Apply, SendsAt;
    var n := |run| - 1;
    assert run != [];
    var e := run[n];
    assert run == run[..n] + [e];
    if r in After(Apply, INIT, run[..n]).sent {
      i := SentIfNotCancelled(run[..n], r);
      SendsAtBefore(run[..n], e, i, r);
    } else {
      StepSends(run[..n], e, r);
      i := n;
    }
  }

  /** Per-host order: what was picked for a host is the beginning of what was added for it. */
  lemma PickedInOrder(s: State, host: string)
    requires Reachable(s)
    ensures ForHost(s.picked, host) <= ForHost(s.added, host)
    ensures ForHost(s.added, host) == ForHost(s.picked, host) + ForHost(s.queue, host)
  {
    ReachableInv(s);
  }

  /** No lost wake-up: when no schedule() runs or is about to, every queued request waits for a
      non-empty host with exactly 6 requests in flight. */
  lemma NoLostWakeUp(s: State, r: Request)
    requires Reachable(s) && r in s.queue
    requires s.frames == [] && s.pending == 0 && s.appending == 0
    ensures r.host != "" && |InFlight(s, r.host)| == 6
  {
    ReachableInv(s);
    var i :| 0 <= i < |s.queue| && s.queue[i] == r;
    assert !Free(s.usages, s.queue[i]);
    assert InFlight(s, r.host) == Unfinished(s, r.host);
  }

  // ---- Draining ----

  function FrameWeight(f: Frame): nat {
    match f
    case Scanning => 1
    case Handlers => 2
    case Candidate(_) => 5
  }

  function StackWeight(frames: seq<Frame>): nat {
    if frames == [] then 0
    else StackWeight(frames[..|frames| - 1]) + FrameWeight(frames[|frames| - 1])
  }

  function Unanswered(s: State): set<Request> { set r | r in s.sent && r !in s.released }

  /** What is still to do without new arrivals. */
  function Work(s: State): nat {
    5 * |s.queue| + StackWeight(s.frames) + 2 * |Unanswered(s)| + 2 * s.pending + 3 * s.appending
  }

  predicate IsArrival(e: Event) { e.AddElsewhere? || e.AddOnNetworkThread? }

  /** Neither an arrival, a cancellation, nor a signal of a reply that has already answered. */
  predicate IsProgress(s: State, e: Event) {
    !IsArrival(e) && !e.Cancel? && (e.Signal? ==> e.request !in s.released)
  }

  lemma StackWeightPush(frames: seq<Frame>, f: Frame)
    ensures StackWeight(frames + [f]) == StackWeight(frames) + FrameWeight(f)
  {
    assert (frames + [f])[..|frames|] == frames;
  }

  function Below(s: State): seq<Frame>
    requires s.frames != []
  {
    s.frames[..|s.frames| - 1]
  }

  lemma PickDecreasesWork(s: State)
    requires Inv(s) && Enabled(s, Pick)
    ensures Work(Apply(s, Pick)) < Work(s)
  {
    var k := FirstFree(s.queue, s.usages);
    StackWeightPush(Below(s), Candidate(s.queue[k]));
    assert Unanswered(Apply(s, Pick)) == Unanswered(s);
  }

  lemma SkipDecreasesWork(s: State)
    requires Inv(s) && Enabled(s, Skip)
    ensures Work(Apply(s, Skip)) < Work(s)
  {
    StackWeightPush(Below(s), Scanning);
    assert Unanswered(Apply(s, Skip)) == Unanswered(s);
  }

  lemma SentIsUnanswered(s: State, t: State, r: Request)
    requires r !in s.sent && r !in s.released && t.sent == s.sent + {r} && t.released == s.released
    ensures |Unanswered(t)| == |Unanswered(s)| + 1
  {
    assert Unanswered(t) == Unanswered(s) + {r};
  }

  lemma SendDecreasesWork(s: State)
    requires ReleaseOk(s) && Enabled(s, Send)
    ensures Work(Apply(s, Send)) < Work(s)
  {
    hide PickUsages, FirstFree, Unanswered;
    StackWeightPush(Below(s), Handlers);
    SentIsUnanswered(s, Apply(s, Send), Top(s));
  }

  lemma SignalDecreasesWork(s: State, r: Request)
    requires Inv(s) && Enabled(s, Signal(r)) && r !in s.released
    ensures Work(Apply(s, Signal(r))) < Work(s)
  {
    StackWeightPush(s.frames, Scanning);
    assert r in Unanswered(s);
    assert Unanswered(Apply(s, Signal(r))) == Unanswered(s) - {r};
  }

  /** Every step of progress does some of the work, and no other step without arrivals adds any. */
  lemma ProgressDecreasesWork(s: State, e: Event)
    requires Inv(s) && Enabled(s, e) && !IsArrival(e)
    ensures if IsProgress(s, e) then Work(Apply(s, e)) < Work(s) else Work(Apply(s, e)) == Work(s)
  {
    if e == Pick {
      PickDecreasesWork(s);
    } else if e == Skip {
      SkipDecreasesWork(s);
    } else if e == Send {
      SendDecreasesWork(s);
    } else if e.Signal? {
      if e.request !in s.released {
        SignalDecreasesWork(s, e.request);
      }
    } else {
      assert Unanswered(Apply(s, e)) == Unanswered(s);
      if e == DeliverSchedule {
        StackWeightPush(s.frames, Scanning);
      } else if e == HandlersDone {
        StackWeightPush(Below(s), Scanning);
      }
    }
  }

  /** How many events of a run are progress. */
  ghost function ProgressCount(s: State, run: seq<Event>): nat {
    if run == [] then 0
    else
      var n := |run| - 1;
      ProgressCount(s, run[..n]) + (if IsProgress(After(Apply, s, run[..n]), run[n]) then 1 else 0)
  }

  /** Without arrivals a run makes at most Work(s) steps of progress. */
  lemma {:induction false} ProgressIsBounded(s: State, run: seq<Event>)
    requires Inv(s) && Valid(Enabled, Apply, s, run)
    requires forall i :: 0 <= i < |run| ==> !IsArrival(run[i])
    ensures Inv(After(Apply, s, run))
    ensures ProgressCount(s, run) + Work(After(Apply, s, run)) <= Work(s)
  {
    if run != [] {
      var n := |run| - 1;
      ProgressIsBounded(s, run[..n]);
      StepKeepsInv(After(Apply, s, run[..n]), run[n]);
      ProgressDecreasesWork(After(Apply, s, run[..n]), run[n]);
    }
  }

  /** The step of progress that can be taken while anything is left. */
  function NextProgress(s: State): Event {
    if s.frames != [] then
      match s.frames[|s.frames| - 1]
      case Scanning => if FirstFree(s.queue, s.usages) == -1 then Leave else Pick
      case Candidate(r) => if r.id in s.cancelled then Skip else Send
      case Handlers => HandlersDone
    else if s.pending > 0 then DeliverSchedule
    else PostSchedule
  }

  predicate Drained(s: State) {
    s.queue == [] && s.frames == [] && s.pending == 0 && s.appending == 0 && forall r :: r in s.picked ==> r in s.released
  }

  /** Progress stops only when the queue is empty and every picked request has been released. */
  lemma StuckOnlyWhenDrained(s: State)
    requires Reachable(s)
    ensures (exists e :: Enabled(s, e) && IsProgress(s, e)) <==> !Drained(s)
  {
    ReachableInv(s);
    if s.frames != [] || s.pending > 0 || s.appending > 0 {
      assert Enabled(s, NextProgress(s)) && IsProgress(s, NextProgress(s));
    } else if s.queue != [] {
      var r := s.queue[0];
      NoLostWakeUp(s, r);
      var q :| q in InFlight(s, r.host);
      assert Enabled(s, Signal(q)) && IsProgress(s, Signal(q));
    } else if q :| q in s.picked && q !in s.released {
      assert Enabled(s, Signal(q)) && IsProgress(s, Signal(q));
    }
  }

  lemma {:induction false} CountedOnce(requests: Queue, r: Request)
    requires forall i, j :: 0 <= i < j < |requests| ==> requests[i] != requests[j]
    ensures multiset(requests)[r] == if r in requests then 1 else 0
  {
    if requests != [] {
      var n := |requests| - 1;
      CountedOnce(requests[..n], r);
      assert requests == requests[..n] + [requests[n]];
    }
  }

  lemma SameRequestsOnce(a: Queue, b: Queue)
    requires forall i, j :: 0 <= i < j < |a| ==> a[i] != a[j]
    requires forall i, j :: 0 <= i < j < |b| ==> b[i] != b[j]
    requires forall r :: r in a <==> r in b
    ensures multiset(a) == multiset(b)
  {
    forall r ensures multiset(a)[r] == multiset(b)[r] {
      CountedOnce(a, r);
      CountedOnce(b, r);
    }
  }

  /** Exactly once: when all is drained, every request ever added has been picked once and has released
      its slot once; and if it was never cancelled, it has been sent. */
  lemma DrainedReleasesAll(s: State)
    requires Inv(s) && Drained(s)
    ensures multiset(s.released) == multiset(s.picked) == multiset(s.added)
    ensures forall r :: r in s.added ==> r in s.sent || r.id in s.cancelled
  {
    SameRequestsOnce(s.released, s.picked);
    SameRequestsOnce(s.picked, s.added);
  }

  lemma DrainedGivesBackSlots(s: State, h: string)
    requires Inv(s) && Drained(s)
    ensures Usage(s.usages, h) == 0
  {
    assert Unfinished(s, h) == {};
  }

  lemma ReachableAfter(s: State, run: seq<Event>)
    requires Reachable(s) && Valid(Enabled, Apply, s, run)
    ensures Reachable(After(Apply, s, run))
  {
    var first :| Valid(Enabled, Apply, INIT, first) && After(Apply, INIT, first) == s;
    Concat(Enabled, Apply, INIT, first, run);
  }

  /** Draining: from any reachable state, a run without arrivals makes at most Work(s) steps of
      progress, and one that ends where none is left has emptied the queue and given back every slot,
      for every request exactly once; and every request that was not cancelled has been sent. */
  lemma QueueDrains(s: State, run: seq<Event>)
    requires Reachable(s) && Valid(Enabled, Apply, s, run)
    requires forall i :: 0 <= i < |run| ==> !IsArrival(run[i])
    ensures ProgressCount(s, run) <= Work(s)
    ensures var t := After(Apply, s, run);
            (forall e :: Enabled(t, e) ==> !IsProgress(t, e)) ==>
              && t.queue == [] && (forall h :: Usage(t.usages, h) == 0)
              && multiset(t.released) == multiset(t.picked) == multiset(t.added)
              && (forall r :: r in t.added ==> r in t.sent || r.id in t.cancelled)
  {
    ReachableInv(s);
    ProgressIsBounded(s, run);
    var t := After(Apply, s, run);
    ReachableAfter(s, run);
    hide Reachable, Inv, Enabled, IsProgress;
    StuckOnlyWhenDrained(t);
    if Drained(t) {
      ReachableInv(t);
      DrainedReleasesAll(t);
      forall h ensures Usage(t.usages, h) == 0 {
        DrainedGivesBackSlots(t, h);
      }
    }
  }

  // ---- The scheduler object ----

  lemma TouchNone(usages: Usages)
    ensures Touch(usages, []) == usages
  {
  }

  lemma TouchOneMore(usages: Usages, queue: Queue, i: nat)
    requires i < |queue|
    ensures Touch(Touch(usages, queue[..i]), [queue[i]]) == Touch(usages, queue[..i + 1])
  {
    assert queue[..i + 1] == queue[..i] + [queue[i]];
  }

  lemma PickUsagesAt(queue: Queue, usages: Usages, i: nat)
    requires i < |queue| && Free(usages, queue[i])
    requires forall j :: 0 <= j < i ==> !Free(usages, queue[j])
    ensures FirstFree(queue, usages) == i
    ensures PickUsages(queue, usages) == Increase(Touch(usages, queue[..i + 1]), queue[i].host)
  {
    assert FirstFree(queue, usages) == i;
    hide FirstFree, Touch, Increase;
  }

  lemma PickStep(s: State) returns (t: State)
    requires Enabled(s, Pick)
    ensures t == Apply(s, Pick)
    ensures var k := FirstFree(s.queue, s.usages);
            && TopIsCandidate(t) && Top(t) == s.queue[k] && Below(t) == Below(s)
            && t.queue == Without(s.queue, k) && t.usages == PickUsages(s.queue, s.usages)
            && t.cancelled == s.cancelled && t.sent == s.sent && t.picked == s.picked + [s.queue[k]]
  {
    t := Apply(s, Pick);
    assert t.frames == Below(s) + [Candidate(s.queue[FirstFree(s.queue, s.usages)])];
  }

  lemma SkipStep(s: State) returns (t: State)
    requires Enabled(s, Skip)
    ensures t == Apply(s, Skip)
    ensures t.frames == Below(s) + [Scanning] && t.queue == s.queue && t.cancelled == s.cancelled && t.sent == s.sent && t.picked == s.picked
    ensures t.usages == Decrease(s.usages, Top(s).host)
  {
    t := Apply(s, Skip);
  }

  lemma SendSteps(s: State) returns (run: seq<Event>, t: State)
    requires Enabled(s, Send)
    ensures Valid(Enabled, Apply, s, run) && After(Apply, s, run) == t
    ensures t.frames == Below(s) + [Scanning] && t.queue == s.queue && t.cancelled == s.cancelled && t.picked == s.picked
    ensures t.usages == s.usages && t.sent == s.sent + {Top(s)}
  {
    var sent := Apply(s, Send);
    assert TopIs(sent, Handlers) && Below(sent) == Below(s);
    Extend(Enabled, Apply, s, [], Send);
    Extend(Enabled, Apply, s, [] + [Send], HandlersDone);
    run, t := [] + [Send] + [HandlersDone], Apply(sent, HandlersDone);
  }

  lemma PickUsagesNone(queue: Queue, usages: Usages)
    requires forall i :: 0 <= i < |queue| ==> !Free(usages, queue[i])
    ensures FirstFree(queue, usages) == -1 && PickUsages(queue, usages) == Touch(usages, queue)
  {
    assert FirstFree(queue, usages) == -1;
    hide FirstFree, Touch;
  }

  /** One turn of the scheduling loop: the candidate is skipped if cancelled, else sent. */
  lemma Turn(s: State) returns (run: seq<Event>, t: State)
    requires TopIs(s, Scanning) && FirstFree(s.queue, s.usages) != -1
    ensures Valid(Enabled, Apply, s, run) && After(Apply, s, run) == t
    ensures var k := FirstFree(s.queue, s.usages);
            var r := s.queue[k];
            var taken := PickUsages(s.queue, s.usages);
            && t.queue == Without(s.queue, k) && t.frames == s.frames && t.cancelled == s.cancelled
            && t.picked == s.picked + [r]
            && t.sent == (if r.id in s.cancelled then s.sent else s.sent + {r})
            && t.usages == (if r.id in s.cancelled then Decrease(taken, r.host) else taken)
  {
    var picked := PickStep(s);
    Extend(Enabled, Apply, s, [], Pick);
    run := [] + [Pick];
    assert s.frames == Below(s) + [Scanning];
    if Top(picked).id in s.cancelled {
      t := SkipStep(picked);
      Extend(Enabled, Apply, s, run, Skip);
      run := run + [Skip];
    } else {
      var rest;
      rest, t := SendSteps(picked);
      Concat(Enabled, Apply, s, run, rest);
      run := run + rest;
    }
  }

  lemma LeaveStep(s: State)
    requires TopIs(s, Scanning) && FirstFree(s.queue, s.usages) == -1
    ensures Enabled(s, Leave)
    ensures var t := Apply(s, Leave);
            && t.queue == s.queue && t.usages == PickUsages(s.queue, s.usages)
            && t.frames == Below(s) && t.sent == s.sent && t.picked == s.picked
  {
  }

  lemma NothingToPick(usages: Usages)
    ensures PickUsages([], usages) == usages
  {
    TouchNone(usages);
  }

  lemma PickUsagesKeepsNoneFree(queue: Queue, usages: Usages)
    requires FirstFree(queue, usages) == -1
    ensures forall r :: r in queue ==> !Free(PickUsages(queue, usages), r)
  {
    assert PickUsages(queue, usages) == Touch(usages, queue);
  }

  class Scheduler {
    var requests: Queue
    var usages: Usages

    constructor ()
      ensures requests == [] && usages == map[]
    {
      requests, usages := [], map[];
    }

    method AddRequest(r: Request)
      modifies this
      ensures requests == old(requests) + [r] && usages == old(usages)
    {
      requests := requests + [r];
    }

    /** The locked scan of schedule(): the first request whose host has a free slot is taken out of
        the list and its slot counted. */
    method TakeCandidate() returns (found: bool, candidate: Request)
      modifies this
      ensures var k := FirstFree(old(requests), old(usages));
              && usages == PickUsages(old(requests), old(usages))
              && (found <==> k != -1)
              && (found ==> candidate == old(requests)[k] && requests == Without(old(requests), k))
              && (!found ==> requests == old(requests))
    {
      found, candidate := false, Request(0, "");
      TouchNone(usages);
      hide Touch, Increase, FirstFree, PickUsages, Without;
      var i := 0;
      while i < |requests|
        invariant 0 <= i <= |requests| && requests == old(requests)
        invariant usages == Touch(old(usages), requests[..i])
        invariant forall j :: 0 <= j < i ==> !Free(old(usages), requests[j])
      {
        TouchOneMore(old(usages), requests, i);
        usages := Touch(usages, [requests[i]]);
        if Usage(usages, requests[i].host) < LIMIT {
          PickUsagesAt(requests, old(usages), i);
          candidate := requests[i];
          found := true;
          usages := Increase(usages, candidate.host);
          requests := Without(requests, i);
          return;
        }
        i := i + 1;
      }
      assert requests[..i] == requests;
      PickUsagesNone(requests, old(usages));
    }

    method DecreaseUsage(host: string)
      modifies this
      ensures usages == Decrease(old(usages), host) && requests == old(requests)
    {
      if host != "" {
        var before := usages;
        usages := usages[host := Usage(usages, host) - 1];
        if usages[host] <= 0 {
          usages := usages - {host};
          assert usages == before - {host};
        }
      }
    }

    /** A schedule() call whose candidates' handlers do not add requests: it is a run of the machine
        from its loop head to its return, leaves no request that could go out, and of the requests it takes
        out it sends exactly those that are not cancelled, in the order it takes them. */
    method Schedule(cancelled: set<nat>, ghost s: State) returns (sent: Queue, ghost taken: Queue, ghost run: seq<Event>)
      requires TopIs(s, Scanning) && s.queue == requests && s.usages == usages && s.cancelled == cancelled
      modifies this
      ensures Valid(Enabled, Apply, s, run)
      ensures var t := After(Apply, s, run);
              && t.queue == requests && t.usages == usages && t.frames == Below(s)
              && t.sent == s.sent + (set r | r in sent) && t.picked == s.picked + taken
      ensures multiset(taken) + multiset(requests) == multiset(old(requests))
      ensures sent == NotCancelled(taken, cancelled)
      ensures forall r :: r in requests ==> !Free(usages, r)
    {
      hide Apply, Enabled, Decrease, PickUsages, FirstFree, Without, NotCancelled;
      sent, taken, run := [], [], [];
      ghost var t := s;
      NotCancelledNone(cancelled);
      assert s.picked + [] == s.picked;
      while requests != []
        invariant Valid(Enabled, Apply, s, run) && After(Apply, s, run) == t
        invariant t.frames == s.frames && t.cancelled == cancelled
        invariant t.queue == requests && t.usages == usages && t.picked == s.picked + taken
        invariant t.sent == s.sent + (set r | r in sent)
        invariant multiset(taken) + multiset(requests) == multiset(old(requests))
        invariant sent == NotCancelled(taken, cancelled)
        decreases |requests|
      {
        ghost var before := requests;
        var found, candidate := TakeCandidate();
        if !found {
          break;
        }
        ghost var turn, u := Turn(t);
        Concat(Enabled, Apply, s, run, turn);
        TakenOut(before, FirstFree(before, t.usages), taken);
        NotCancelledMore(taken, candidate, cancelled);
        Text.Assoc(s.picked, taken, [candidate]);
        if candidate.id in cancelled {
          DecreaseUsage(candidate.host);
        } else {
          sent := sent + [candidate];
        }
        run, t, taken := run + turn, u, taken + [candidate];
      }
      NothingToPick(t.usages);
      PickUsagesKeepsNoneFree(t.queue, t.usages);
      LeaveStep(t);
      Extend(Enabled, Apply, s, run, Leave);
      run, t := run + [Leave], Apply(t, Leave);
    }
  }

  /** The requests not cancelled, in their order. */
  function NotCancelled(requests: Queue, cancelled: set<nat>): Queue {
    if requests == [] then []
    else
      var n := |requests| - 1;
      NotCancelled(requests[..n], cancelled) + (if requests[n].id in cancelled then [] else [requests[n]])
  }

  lemma NotCancelledNone(cancelled: set<nat>)
    ensures NotCancelled([], cancelled) == []
  {
  }

  lemma NotCancelledMore(requests: Queue, r: Request, cancelled: set<nat>)
    ensures NotCancelled(requests + [r], cancelled) ==
            NotCancelled(requests, cancelled) + (if r.id in cancelled then [] else [r])
  {
    assert (requests + [r])[..|requests|] == requests;
  }

  lemma TakenOut(queue: Queue, k: nat, taken: Queue)
    requires k < |queue|
    ensures |Without(queue, k)| < |queue|
    ensures multiset(taken + [queue[k]]) + multiset(Without(queue, k)) == multiset(taken) + multiset(queue)
  {
    assert queue == queue[..k] + ([queue[k]] + queue[k + 1..]);
  }
}
