/** Calls handed to another thread through one invoker: each call connects a filter for its own id,
    emits that id to every live connection, and the filter runs the method when the id comes back. */
module QueuedCalls {
  import opened Runs
  import opened Text

  type Id = nat
  type Thread = nat
  type Context = nat

  datatype Progress = Numbered | Connected | Emitted | Done

  /** A call by `caller` to be run in `context`; `block` calls make the caller wait until done. */
  datatype Call = Call(caller: Thread, context: Context, block: bool, progress: Progress) {
    /** The id has been emitted. */
    predicate Out() { progress == Emitted || progress == Done }
  }

  /** A queued delivery to the connection that call `connection` made, of the emitted id. */
  datatype Delivery = Delivery(connection: Id, emitted: Id)

  datatype Ran = Ran(id: Id, context: Context)

  /** The invoker's id counter and connections in order of connecting, every call ever made, the
      event queue of every context, and the methods run so far. */
  datatype State = State(
    counter: nat,
    calls: map<Id, Call>,
    connections: seq<Id>,
    queues: map<Context, seq<Delivery>>,
    log: seq<Ran>)

  const INIT := State(0, map[], [], map[], [])

  datatype Event =
    | TakeId(caller: Thread, context: Context, block: bool)
    | Connect(id: Id)
    | Emit(id: Id)
    | Deliver(context: Context)
    | Return(id: Id)

  function Queue(s: State, c: Context): seq<Delivery> { if c in s.queues then s.queues[c] else [] }

  /** Between taking its id and emitting it a call keeps its thread busy. */
  predicate Busy(s: State, t: Thread) {
    exists id :: id in s.calls && s.calls[id].caller == t && !s.calls[id].Out()
  }

  predicate Enabled(s: State, e: Event) {
    match e
    case TakeId(t, _, _) => !Busy(s, t)
    case Connect(id) => id in s.calls && s.calls[id].progress == Numbered
    case Emit(id) => id in s.calls && s.calls[id].progress == Connected
    case Deliver(c) => Queue(s, c) != []
    case Return(id) => id in s.calls && s.calls[id].block && s.calls[id].progress == Done
  }

  /** What one emission posts to one context. */
  function Posted(s: State, connections: seq<Id>, c: Context, emitted: Id): seq<Delivery> {
    if connections == [] then []
    else
      var n := |connections| - 1;
      var k := connections[n];
      var before := Posted(s, connections[..n], c, emitted);
      if k in s.calls && s.calls[k].context == c then before + [Delivery(k, emitted)] else before
  }

  function Receivers(s: State, connections: seq<Id>): set<Context> {
    set i | 0 <= i < |connections| && connections[i] in s.calls :: s.calls[connections[i]].context
  }

  function Contexts(s: State): set<Context> { s.queues.Keys + Receivers(s, s.connections) }

  function Disconnect(connections: seq<Id>, id: Id): seq<Id> {
    if connections == [] then []
    else
      var n := |connections| - 1;
      var before := Disconnect(connections[..n], id);
      if connections[n] == id then before else before + [connections[n]]
  }

  function SetProgress(s: State, id: Id, p: Progress): State
    requires id in s.calls
  {
    s.(calls := s.calls[id := s.calls[id].(progress := p)])
  }

  function Apply(s: State, e: Event): State {
    match e
    case TakeId(t, c, block) =>
      s.(counter := s.counter + 1, calls := s.calls[s.counter + 1 := Call(t, c, block, Numbered)])
    case Connect(id) =>
      if id !in s.calls then s else SetProgress(s, id, Connected).(connections := s.connections + [id])
    case Emit(id) =>
      if id !in s.calls then s
      else SetProgress(s, id, Emitted).(
        queues := map c | c in Contexts(s) :: Queue(s, c) + Posted(s, s.connections, c, id))
    case Deliver(c) =>
      if Queue(s, c) == [] then s
      else
        var d := Queue(s, c)[0];
        var s' := s.(queues := s.queues[c := Queue(s, c)[1..]]);
        if d.connection != d.emitted || d.connection !in s.calls then s'
        else Run(s', d.connection, c)
    case Return(id) => s.(connections := Disconnect(s.connections, id))
  }

  /** The filter finds its own id: the method runs; a call nobody waits for disconnects itself. */
  function Run(s: State, id: Id, c: Context): State
    requires id in s.calls
  {
    var s := SetProgress(s, id, Done).(log := s.log + [Ran(id, c)]);
    if s.calls[id].block then s else s.(connections := Disconnect(s.connections, id))
  }

  ghost predicate Reachable(s: State) {
    exists run :: Valid(Enabled, Apply, INIT, run) && After(Apply, INIT, run) == s
  }

  // ---- Invariant ----

  predicate Own(d: Delivery) { d.connection == d.emitted }

  /** Ids grow with time, and a call not yet emitted is its thread's newest. */
  predicate IdsOk(s: State) {
    && (forall id :: id in s.calls ==> 1 <= id <= s.counter)
    && (forall i, j :: i in s.calls && j in s.calls && s.calls[i].caller == s.calls[j].caller && i < j ==>
          s.calls[i].Out())
  }

  predicate Distinct(ids: seq<Id>) { forall i, j :: 0 <= i < j < |ids| ==> ids[i] != ids[j] }

  predicate ConnectionsOk(s: State) {
    && (forall k :: k in s.connections ==> k in s.calls)
    && (forall id :: id in s.calls && (s.calls[id].progress == Connected || s.calls[id].progress == Emitted) ==> id in s.connections)
    && Distinct(s.connections)
    && (forall k :: k in s.connections ==> s.calls[k].progress != Numbered)
    && (forall k :: k in s.connections && s.calls[k].progress == Done ==> s.calls[k].block)
  }

  /** The ids whose own delivery a queue holds, in queue order. */
  function OwnIds(queue: seq<Delivery>): seq<Id> {
    if queue == [] then []
    else
      var n := |queue| - 1;
      if Own(queue[n]) then OwnIds(queue[..n]) + [queue[n].emitted] else OwnIds(queue[..n])
  }

  /** The ids run in a context, in the order they ran. */
  function RanIn(log: seq<Ran>, c: Context): seq<Id> {
    if log == [] then []
    else
      var n := |log| - 1;
      if log[n].context == c then RanIn(log[..n], c) + [log[n].id] else RanIn(log[..n], c)
  }

  /** What ran in a context, then what is going to. */
  function Timeline(s: State, c: Context): seq<Id> { RanIn(s.log, c) + OwnIds(Queue(s, c)) }

  predicate IsOut(s: State, id: Id, c: Context) { id in s.calls && s.calls[id].context == c && s.calls[id].Out() }

  predicate IsDone(s: State, id: Id, c: Context) {
    id in s.calls && s.calls[id].context == c && s.calls[id].progress == Done
  }

  predicate SameCaller(s: State, i: Id, j: Id) {
    i in s.calls && j in s.calls && s.calls[i].caller == s.calls[j].caller
  }

  /** One thread's calls stand in id order. */
  predicate Ordered(s: State, ids: seq<Id>) {
    forall i, j :: 0 <= i < j < |ids| && SameCaller(s, ids[i], ids[j]) ==> ids[i] < ids[j]
  }

  /** A context's timeline is its emitted calls, those done first, in order. */
  ghost predicate TimelineOk(s: State, c: Context) {
    && Ordered(s, Timeline(s, c))
    && (forall id :: id in Timeline(s, c) <==> IsOut(s, id, c))
    && (forall id :: id in RanIn(s.log, c) <==> IsDone(s, id, c))
  }

  ghost predicate Inv(s: State) { IdsOk(s) && ConnectionsOk(s) && forall c :: TimelineOk(s, c) }

  // ---- Each step ----

  lemma OwnIdsAppend(queue: seq<Delivery>, d: Delivery)
    ensures OwnIds(queue + [d]) == if Own(d) then OwnIds(queue) + [d.emitted] else OwnIds(queue)
  {
    assert (queue + [d])[..|queue|] == queue;
  }

  lemma RanInAppend(log: seq<Ran>, r: Ran, c: Context)
    ensures RanIn(log + [r], c) == if r.context == c then RanIn(log, c) + [r.id] else RanIn(log, c)
  {
    assert (log + [r])[..|log|] == log;
  }

  lemma {:induction false} OwnIdsConcat(a: seq<Delivery>, b: seq<Delivery>)
    ensures OwnIds(a + b) == OwnIds(a) + OwnIds(b)
  {
    if b == [] {
      assert a + b == a;
    } else {
      var n := |b| - 1;
      assert a + b == (a + b[..n]) + [b[n]];
      OwnIdsConcat(a, b[..n]);
      OwnIdsAppend(a + b[..n], b[n]);
      if Own(b[n]) {
        Assoc(OwnIds(a), OwnIds(b[..n]), [b[n].emitted]);
      }
    }
  }

  /** An emission posts one own delivery, to the caller's context. */
  lemma {:induction false} PostedOnce(s: State, connections: seq<Id>, c: Context, id: Id)
    requires Distinct(connections)
    ensures OwnIds(Posted(s, connections, c, id)) ==
            if id in connections && id in s.calls && s.calls[id].context == c then [id] else []
  {
    if connections != [] {
      var n := |connections| - 1;
      var k := connections[n];
      PostedOnce(s, connections[..n], c, id);
      OwnIdsAppend(Posted(s, connections[..n], c, id), Delivery(k, id));
      hide OwnIds;
      assert connections == connections[..n] + [k] && k !in connections[..n];
    }
  }

  lemma ReceiversMore(s: State, connections: seq<Id>)
    requires connections != []
    ensures var n := |connections| - 1;
            var k := connections[n];
            Receivers(s, connections) ==
              Receivers(s, connections[..n]) + (if k in s.calls then {s.calls[k].context} else {})
  {
    var n := |connections| - 1;
    assert forall i :: 0 <= i < n ==> connections[..n][i] == connections[i];
  }

  lemma {:induction false} PostedElsewhere(s: State, connections: seq<Id>, c: Context, id: Id)
    requires c !in Receivers(s, connections)
    ensures Posted(s, connections, c, id) == []
  {
    if connections != [] {
      ReceiversMore(s, connections);
      PostedElsewhere(s, connections[..|connections| - 1], c, id);
    }
  }

  lemma {:induction false} DisconnectContents(connections: seq<Id>, id: Id)
    ensures forall k :: k in Disconnect(connections, id) <==> k in connections && k != id
    ensures Distinct(connections) ==> Distinct(Disconnect(connections, id))
  {
    if connections != [] {
      var n := |connections| - 1;
      DisconnectContents(connections[..n], id);
      assert connections == connections[..n] + [connections[n]];
      if Distinct(connections) {
        assert Distinct(connections[..n]) && connections[n] !in connections[..n];
      }
    }
  }

  /** A step that leaves queues, log and the emitted calls alone leaves the timelines alone. */
  lemma SameTimeline(s: State, t: State, c: Context)
    requires TimelineOk(s, c)
    requires t.log == s.log && Queue(t, c) == Queue(s, c)
    requires forall id :: id in s.calls ==> id in t.calls && t.calls[id].caller == s.calls[id].caller
    requires forall id :: IsOut(t, id, c) <==> IsOut(s, id, c)
    requires forall id :: IsDone(t, id, c) <==> IsDone(s, id, c)
    ensures TimelineOk(t, c)
  {
    var line := Timeline(s, c);
    assert Timeline(t, c) == line;
    assert forall i :: 0 <= i < |line| ==> line[i] in line;
  }

  lemma TakeIdKeepsInv(s: State, e: Event)
    requires Inv(s) && Enabled(s, e) && e.TakeId?
    ensures Inv(Apply(s, e))
  {
    var s' := Apply(s, e);
    forall i | i in s.calls && s.calls[i].caller == e.caller ensures s.calls[i].Out() {
      assert !Busy(s, e.caller);
    }
    forall c ensures TimelineOk(s', c) {
      assert TimelineOk(s, c);
      SameTimeline(s, s', c);
    }
  }

  lemma ConnectKeepsInv(s: State, id: Id)
    requires Inv(s) && Enabled(s, Connect(id))
    ensures Inv(Apply(s, Connect(id)))
  {
    var s' := Apply(s, Connect(id));
    assert s'.connections == s.connections + [id];
    forall c ensures TimelineOk(s', c) {
      assert TimelineOk(s, c);
      SameTimeline(s, s', c);
    }
  }

  lemma ReturnKeepsInv(s: State, id: Id)
    requires Inv(s) && Enabled(s, Return(id))
    ensures Inv(Apply(s, Return(id)))
  {
    var s' := Apply(s, Return(id));
    DisconnectContents(s.connections, id);
    forall c ensures TimelineOk(s', c) {
      assert TimelineOk(s, c);
      SameTimeline(s, s', c);
    }
  }

  lemma EmitExtendsQueue(s: State, id: Id, c: Context)
    requires Enabled(s, Emit(id))
    ensures Queue(Apply(s, Emit(id)), c) == Queue(s, c) + Posted(s, s.connections, c, id)
  {
    if c !in Contexts(s) {
      PostedElsewhere(s, s.connections, c, id);
    }
  }

  lemma EmitExtendsTimeline(s: State, id: Id, c: Context)
    requires ConnectionsOk(s) && Enabled(s, Emit(id))
    ensures var line := Timeline(s, c);
            Timeline(Apply(s, Emit(id)), c) == if s.calls[id].context == c then line + [id] else line
  {
    var s' := Apply(s, Emit(id));
    assert s'.log == s.log && id in s.connections;
    EmitExtendsQueue(s, id, c);
    hide Apply, RanIn, OwnIds, Posted;
    PostedOnce(s, s.connections, c, id);
    OwnIdsConcat(Queue(s, c), Posted(s, s.connections, c, id));
    Assoc(RanIn(s.log, c), OwnIds(Queue(s, c)), [id]);
  }

  /** A timeline that one newly emitted call, newer than its thread's others, joins at the end. */
  lemma ExtendTimeline(s: State, t: State, id: Id, c: Context)
    requires TimelineOk(s, c) && id in s.calls
    requires t.log == s.log && Timeline(t, c) == Timeline(s, c) + [id]
    requires forall k: Id :: IsOut(s, k, c) && SameCaller(s, k, id) ==> k < id
    requires forall k :: k in s.calls ==> k in t.calls && t.calls[k].caller == s.calls[k].caller
    requires forall k: Id :: IsOut(t, k, c) <==> IsOut(s, k, c) || k == id
    requires forall k: Id :: IsDone(t, k, c) <==> IsDone(s, k, c)
    ensures TimelineOk(t, c)
  {
    var line := Timeline(s, c);
    hide Timeline, RanIn;
    assert forall i :: 0 <= i < |line| ==> line[i] in line;
  }

  /** A call not yet emitted is newer than its thread's emitted ones. */
  lemma NewestOfCaller(s: State, id: Id, c: Context)
    requires IdsOk(s) && Enabled(s, Emit(id))
    ensures forall k: Id :: IsOut(s, k, c) && SameCaller(s, k, id) ==> k < id
  {
    forall k: Id | IsOut(s, k, c) && SameCaller(s, k, id) ensures k < id {
      assert k > id ==> s.calls[id].Out();
    }
  }

  lemma EmitKeepsTimeline(s: State, id: Id, c: Context)
    requires Inv(s) && Enabled(s, Emit(id))
    ensures TimelineOk(Apply(s, Emit(id)), c)
  {
    var s' := Apply(s, Emit(id));
    assert TimelineOk(s, c) && s'.log == s.log && id in s.calls;
    EmitExtendsTimeline(s, id, c);
    NewestOfCaller(s, id, c);
    EmitChangesOut(s, id, c);
    hide Timeline, TimelineOk, Apply, IsOut, IsDone, ConnectionsOk, IdsOk;
    if s.calls[id].context == c {
      ExtendTimeline(s, s', id, c);
    } else {
      MoveBoundary(s, s', c, []);
    }
  }

  lemma EmitChangesOut(s: State, id: Id, c: Context)
    requires Enabled(s, Emit(id))
    ensures var t := Apply(s, Emit(id));
            && (forall k: Id :: IsOut(t, k, c) <==> IsOut(s, k, c) || (k == id && s.calls[id].context == c))
            && (forall k: Id :: IsDone(t, k, c) <==> IsDone(s, k, c))
            && (forall k :: k in s.calls ==> k in t.calls && t.calls[k].caller == s.calls[k].caller)
  {
  }

  lemma EmitKeepsInv(s: State, id: Id)
    requires Inv(s) && Enabled(s, Emit(id))
    ensures Inv(Apply(s, Emit(id)))
  {
    forall c ensures TimelineOk(Apply(s, Emit(id)), c) {
      EmitKeepsTimeline(s, id, c);
    }
  }

  /** The head of a queue, if it is a call's own delivery, is an emitted call not yet run. */
  lemma OwnHead(s: State, c: Context)
    requires TimelineOk(s, c) && Queue(s, c) != [] && Own(Queue(s, c)[0])
    ensures var id := Queue(s, c)[0].emitted;
            IsOut(s, id, c) && s.calls[id].progress == Emitted
    ensures var queue := Queue(s, c); OwnIds(queue) == [queue[0].emitted] + OwnIds(queue[1..])
  {
    var queue := Queue(s, c);
    var id := queue[0].emitted;
    var line := Timeline(s, c);
    OwnIdsHead(queue);
    assert line[|RanIn(s.log, c)|] == id && id in line;
    if id in RanIn(s.log, c) {
      var i :| 0 <= i < |RanIn(s.log, c)| && RanIn(s.log, c)[i] == id;
      assert line[i] == id;
      assert SameCaller(s, line[i], line[|RanIn(s.log, c)|]);
    }
  }

  lemma OwnIdsHead(queue: seq<Delivery>)
    requires queue != []
    ensures OwnIds(queue) == (if Own(queue[0]) then [queue[0].emitted] else []) + OwnIds(queue[1..])
  {
    assert queue == [] + [queue[0]] + queue[1..];
    OwnIdsAppend([], queue[0]);
    OwnIdsConcat([] + [queue[0]], queue[1..]);
  }

  lemma DeliverTakesHead(s: State, c: Context, d: Context)
    requires TimelineOk(s, c) && Enabled(s, Deliver(c))
    ensures var t := Apply(s, Deliver(c));
            && Queue(t, d) == (if d == c then Queue(s, c)[1..] else Queue(s, d))
            && t.log == if Own(Queue(s, c)[0]) then s.log + [Ran(Queue(s, c)[0].emitted, c)] else s.log
  {
    if Own(Queue(s, c)[0]) {
      OwnHead(s, c);
    }
  }

  /** Delivering moves the boundary between what ran and what will, and nothing else. */
  lemma DeliverKeepsTimeline(s: State, c: Context, d: Context)
    requires TimelineOk(s, c) && Enabled(s, Deliver(c))
    ensures Timeline(Apply(s, Deliver(c)), d) == Timeline(s, d)
    ensures RanIn(Apply(s, Deliver(c)).log, d) ==
            if d == c && Own(Queue(s, c)[0]) then RanIn(s.log, d) + [Queue(s, c)[0].emitted] else RanIn(s.log, d)
  {
    var queue := Queue(s, c);
    var id := queue[0].emitted;
    DeliverTakesHead(s, c, d);
    hide Apply, RanIn, OwnIds, Queue, TimelineOk;
    OwnIdsHead(queue);
    RanInAppend(s.log, Ran(id, c), d);
    Assoc(RanIn(s.log, d), [id], OwnIds(queue[1..]));
  }

  /** A timeline whose boundary has moved over `moved`. */
  lemma MoveBoundary(s: State, t: State, c: Context, moved: seq<Id>)
    requires TimelineOk(s, c)
    requires Timeline(t, c) == Timeline(s, c) && RanIn(t.log, c) == RanIn(s.log, c) + moved
    requires forall k :: k in s.calls ==> k in t.calls && t.calls[k].caller == s.calls[k].caller
    requires forall k: Id :: IsOut(t, k, c) <==> IsOut(s, k, c)
    requires forall k: Id :: IsDone(t, k, c) <==> IsDone(s, k, c) || k in moved
    ensures TimelineOk(t, c)
  {
    var line := Timeline(s, c);
    hide Timeline, RanIn;
    assert forall i :: 0 <= i < |line| ==> line[i] in line;
  }

  lemma DeliverChangesDone(s: State, c: Context, d: Context)
    requires TimelineOk(s, c) && Enabled(s, Deliver(c))
    ensures var t := Apply(s, Deliver(c));
            var moved := if d == c && Own(Queue(s, c)[0]) then [Queue(s, c)[0].emitted] else [];
            && (forall k :: k in s.calls ==> k in t.calls && t.calls[k].caller == s.calls[k].caller)
            && (forall k: Id :: IsOut(t, k, d) <==> IsOut(s, k, d))
            && (forall k: Id :: IsDone(t, k, d) <==> IsDone(s, k, d) || k in moved)
  {
    if Own(Queue(s, c)[0]) {
      OwnHead(s, c);
    }
  }

  lemma DeliverKeepsIds(s: State, c: Context)
    requires IdsOk(s) && ConnectionsOk(s) && TimelineOk(s, c) && Enabled(s, Deliver(c))
    ensures IdsOk(Apply(s, Deliver(c))) && ConnectionsOk(Apply(s, Deliver(c)))
  {
    if Own(Queue(s, c)[0]) {
      OwnHead(s, c);
      DisconnectContents(s.connections, Queue(s, c)[0].emitted);
    }
  }

  lemma DeliverKeepsInv(s: State, c: Context)
    requires Inv(s) && Enabled(s, Deliver(c))
    ensures Inv(Apply(s, Deliver(c)))
  {
    var own := Own(Queue(s, c)[0]);
    var id := Queue(s, c)[0].emitted;
    var s' := Apply(s, Deliver(c));
    assert TimelineOk(s, c);
    DeliverKeepsIds(s, c);
    hide Apply, IdsOk, ConnectionsOk, TimelineOk, Timeline, RanIn;
    forall d ensures TimelineOk(s', d) {
      assert TimelineOk(s, d);
      DeliverKeepsTimeline(s, c, d);
      DeliverChangesDone(s, c, d);
      MoveBoundary(s, s', d, if d == c && own then [id] else []);
    }
  }

  lemma StepKeepsInv(s: State, e: Event)
    requires Inv(s) && Enabled(s, e)
    ensures Inv(Apply(s, e))
  {
    match e
    case TakeId(_, _, _) => TakeIdKeepsInv(s, e);
    case Connect(id) => ConnectKeepsInv(s, id);
    case Emit(id) => EmitKeepsInv(s, id);
    case Deliver(c) => DeliverKeepsInv(s, c);
    case Return(id) => ReturnKeepsInv(s, id);
  }

  lemma InitInv()
    ensures Inv(INIT)
  {
    forall c ensures TimelineOk(INIT, c) {
      assert Timeline(INIT, c) == [];
    }
  }

  lemma ReachableInv(s: State)
    requires Reachable(s)
    ensures Inv(s)
  {
    var run :| Valid(Enabled, Apply, INIT, run) && After(Apply, INIT, run) == s;
    InitInv();
    hide Inv, Enabled, Apply;
    forall t: State, e: Event | Inv(t) && Enabled(t, e) ensures Inv(Apply(t, e)) {
      StepKeepsInv(t, e);
    }
    Invariant(Enabled, Apply, Inv, INIT, run);
  }

  // ---- Results ----

  /** How many times a method has run. */
  function TimesRun(log: seq<Ran>, id: Id): nat {
    if log == [] then 0
    else
      var n := |log| - 1;
      TimesRun(log[..n], id) + (if log[n].id == id then 1 else 0)
  }

  function Count(ids: seq<Id>, id: Id): nat {
    if ids == [] then 0
    else
      var n := |ids| - 1;
      Count(ids[..n], id) + (if ids[n] == id then 1 else 0)
  }

  lemma CountAppend(ids: seq<Id>, last: Id, id: Id)
    ensures Count(ids + [last], id) == Count(ids, id) + (if last == id then 1 else 0)
  {
    assert (ids + [last])[..|ids|] == ids;
  }

  lemma {:induction false} TimesRunInContext(log: seq<Ran>, id: Id, c: Context)
    requires forall i :: 0 <= i < |log| && log[i].id == id ==> log[i].context == c
    ensures TimesRun(log, id) == Count(RanIn(log, c), id)
  {
    if log != [] {
      var n := |log| - 1;
      TimesRunInContext(log[..n], id, c);
      CountAppend(RanIn(log[..n], c), log[n].id, id);
      hide Count;
    }
  }

  lemma {:induction false} CountOnce(ids: seq<Id>, id: Id)
    requires forall i, j :: 0 <= i < j < |ids| && ids[i] == id ==> ids[j] != id
    ensures Count(ids, id) == if id in ids then 1 else 0
  {
    if ids != [] {
      var n := |ids| - 1;
      CountOnce(ids[..n], id);
      assert ids == ids[..n] + [ids[n]];
    }
  }

  lemma {:induction false} RanInHas(log: seq<Ran>, i: nat)
    requires i < |log|
    ensures log[i].id in RanIn(log, log[i].context)
  {
    var n := |log| - 1;
    if i < n {
      RanInHas(log[..n], i);
    }
  }

  lemma {:induction false} OwnIdsHas(queue: seq<Delivery>, id: Id)
    ensures id in OwnIds(queue) <==> Delivery(id, id) in queue
  {
    if queue != [] {
      var n := |queue| - 1;
      OwnIdsHas(queue[..n], id);
      assert queue == queue[..n] + [queue[n]];
    }
  }

  /** Exactly once: a requested method has run once if its call is done and not at all otherwise; an
      emitted call is done unless its own delivery is still queued in its context. */
  lemma ExactlyOnce(s: State, id: Id)
    requires Reachable(s) && id in s.calls
    ensures TimesRun(s.log, id) == if s.calls[id].progress == Done then 1 else 0
    ensures s.calls[id].Out() ==>
              (s.calls[id].progress == Done <==> Delivery(id, id) !in Queue(s, s.calls[id].context))
  {
    ReachableInv(s);
    var c := s.calls[id].context;
    forall i | 0 <= i < |s.log| && s.log[i].id == id ensures s.log[i].context == c {
      RanInHas(s.log, i);
      assert TimelineOk(s, s.log[i].context);
    }
    assert TimelineOk(s, c);
    TimesRunInContext(s.log, id, c);
    OwnIdsHas(Queue(s, c), id);
    RanOnce(s, id, c);
    hide RanIn, OwnIds;
    assert id in Timeline(s, c) ==> id in RanIn(s.log, c) || id in OwnIds(Queue(s, c));
  }

  lemma RanOnce(s: State, id: Id, c: Context)
    requires TimelineOk(s, c) && id in s.calls
    ensures Count(RanIn(s.log, c), id) == if id in RanIn(s.log, c) then 1 else 0
    ensures id in RanIn(s.log, c) ==> id !in OwnIds(Queue(s, c))
  {
    var ran, own, line := RanIn(s.log, c), OwnIds(Queue(s, c)), Timeline(s, c);
    hide RanIn, OwnIds;
    forall i, j | 0 <= i < j < |ran| && ran[i] == id ensures ran[j] != id {
      assert line[i] == ran[i] && line[j] == ran[j];
      assert SameCaller(s, id, id);
    }
    CountOnce(ran, id);
    forall i, k | 0 <= i < |ran| && 0 <= k < |own| && ran[i] == id ensures own[k] != id {
      assert line[i] == ran[i] && line[|ran| + k] == own[k];
      assert SameCaller(s, id, id);
    }
  }

  /** The calls of a run, in the order they took their ids. */
  function Issued(run: seq<Event>): seq<Event> {
    if run == [] then []
    else
      var n := |run| - 1;
      Issued(run[..n]) + (if run[n].TakeId? then [run[n]] else [])
  }

  /** The record of a call is the call that was made. */
  predicate IsIssued(call: Call, e: Event) {
    e.TakeId? && call.caller == e.caller && call.context == e.context && call.block == e.block
  }

  lemma StepIssues(s: State, e: Event)
    requires Enabled(s, e)
    ensures var t := Apply(s, e);
            && t.counter == (if e.TakeId? then s.counter + 1 else s.counter)
            && t.calls.Keys == s.calls.Keys + (if e.TakeId? then {s.counter + 1} else {})
            && (e.TakeId? ==> IsIssued(t.calls[s.counter + 1], e))
            && (forall id :: id in s.calls && id <= s.counter ==>
                  && t.calls[id].caller == s.calls[id].caller
                  && t.calls[id].context == s.calls[id].context && t.calls[id].block == s.calls[id].block)
  {
    hide Posted, Receivers, Disconnect;
  }

  /** The calls are numbered in the order they were made, and each is recorded as it was made. */
  lemma {:induction false} CallsAsIssued(run: seq<Event>)
    requires Valid(Enabled, Apply, INIT, run)
    ensures var s, issued := After(Apply, INIT, run), Issued(run);
            && s.counter == |issued| && (forall id :: id in s.calls <==> 1 <= id <= |issued|)
            && (forall id :: id in s.calls ==> IsIssued(s.calls[id], issued[id - 1]))
  {
    hide Enabled, Apply;
    if run != [] {
      var n := |run| - 1;
      CallsAsIssued(run[..n]);
      StepIssues(After(Apply, INIT, run[..n]), run[n]);
    }
  }

  /** A method runs only in the context its call was made for, and never for an id nobody took. */
  lemma RunsWhereCalled(run: seq<Event>, i: nat)
    requires Valid(Enabled, Apply, INIT, run) && i < |After(Apply, INIT, run).log|
    ensures var ran, issued := After(Apply, INIT, run).log[i], Issued(run);
            1 <= ran.id <= |issued| && issued[ran.id - 1].TakeId? && issued[ran.id - 1].context == ran.context
  {
    var s := After(Apply, INIT, run);
    assert Reachable(s);
    ReachableInv(s);
    CallsAsIssued(run);
    RanInHas(s.log, i);
    assert TimelineOk(s, s.log[i].context);
    hide Inv, Reachable, Enabled, Apply;
  }

  /** A call's connection is live from when it is made until the method has run, and that of a blocking
      call at most until it returns. */
  lemma LiveConnections(s: State, id: Id)
    requires Reachable(s)
    ensures id in s.connections ==>
              id in s.calls && s.calls[id].progress != Numbered && (s.calls[id].progress == Done ==> s.calls[id].block)
    ensures id in s.calls && (s.calls[id].progress == Connected || s.calls[id].progress == Emitted) ==> id in s.connections
    ensures Enabled(s, Return(id)) ==>
              var t := Apply(s, Return(id));
              forall k :: k in t.connections <==> k in s.connections && k != id
  {
    ReachableInv(s);
    DisconnectContents(s.connections, id);
  }

  /** An emission is delivered to every live connection in its context. */
  lemma {:induction false} PostedToAll(s: State, connections: seq<Id>, c: Context, id: Id, d: Delivery)
    ensures d in Posted(s, connections, c, id) <==>
              d.emitted == id && d.connection in connections && d.connection in s.calls && s.calls[d.connection].context == c
  {
    if connections != [] {
      var n := |connections| - 1;
      PostedToAll(s, connections[..n], c, id, d);
      assert connections == connections[..n] + [connections[n]];
    }
  }

  /** Calls from one thread to one context run in the order they were issued. */
  lemma RunsInIssueOrder(s: State, c: Context, i: nat, j: nat)
    requires Reachable(s) && i < j < |RanIn(s.log, c)|
    requires SameCaller(s, RanIn(s.log, c)[i], RanIn(s.log, c)[j])
    ensures RanIn(s.log, c)[i] < RanIn(s.log, c)[j]
  {
    ReachableInv(s);
    assert TimelineOk(s, c);
    var line := Timeline(s, c);
    assert line[i] == RanIn(s.log, c)[i] && line[j] == RanIn(s.log, c)[j];
  }

  // ---- The invoker ----

  /** The queues after an id has been posted to the contexts of some connections. */
  ghost predicate PostedTo(s: State, connections: seq<Id>, id: Id, posted: map<Context, seq<Delivery>>) {
    && posted.Keys == s.queues.Keys + Receivers(s, connections)
    && forall c :: c in posted ==> posted[c] == Queue(s, c) + Posted(s, connections, c, id)
  }

  lemma PostOne(s: State, connections: seq<Id>, i: nat, id: Id, posted: map<Context, seq<Delivery>>)
    requires i < |connections| && connections[i] in s.calls && PostedTo(s, connections[..i], id, posted)
    ensures var c := s.calls[connections[i]].context;
            PostedTo(s, connections[..i + 1], id,
                     posted[c := (if c in posted then posted[c] else []) + [Delivery(connections[i], id)]])
  {
    var done := connections[..i + 1];
    var c := s.calls[connections[i]].context;
    assert done[..i] == connections[..i] && done[i] == connections[i];
    ReceiversMore(s, done);
    if c !in posted {
      PostedElsewhere(s, connections[..i], c, id);
    }
    Assoc(Queue(s, c), Posted(s, connections[..i], c, id), [Delivery(connections[i], id)]);
    hide Receivers;
  }

  lemma EmitPosts(s: State, id: Id, posted: map<Context, seq<Delivery>>)
    requires PostedTo(s, s.connections, id, posted) && id in s.calls
    ensures Apply(s, Emit(id)) == s.(calls := s.calls[id := s.calls[id].(progress := Emitted)], queues := posted)
  {
    hide Posted, Receivers;
  }

  /** The object whose signal carries the calls. Each method is one step of a caller or of the event
      loop of a context; between any two of them other threads take theirs. */
  class Invoker {
    var nextDelayedCallId: nat
    var connections: seq<Id>
    var queues: map<Context, seq<Delivery>>
    var calls: map<Id, Call>
    ghost var log: seq<Ran>

    ghost function View(): State
      reads this
    {
      State(nextDelayedCallId, calls, connections, queues, log)
    }

    constructor ()
      ensures View() == INIT && Inv(View())
    {
      nextDelayedCallId, connections, queues, calls, log := 0, [], map[], map[], [];
      new;
      InitInv();
    }

    method NextQueuedCallId(t: Thread, c: Context, block: bool) returns (id: Id)
      requires Inv(View()) && Enabled(View(), TakeId(t, c, block))
      modifies this
      ensures View() == Apply(old(View()), TakeId(t, c, block)) && Inv(View()) && id == nextDelayedCallId
    {
      StepKeepsInv(View(), TakeId(t, c, block));
      hide Inv;
      nextDelayedCallId := nextDelayedCallId + 1;
      id := nextDelayedCallId;
      calls := calls[id := Call(t, c, block, Numbered)];
    }

    method ConnectFilter(id: Id)
      requires Inv(View()) && Enabled(View(), Connect(id))
      modifies this
      ensures View() == Apply(old(View()), Connect(id)) && Inv(View())
    {
      StepKeepsInv(View(), Connect(id));
      hide Inv;
      connections := connections + [id];
      calls := calls[id := calls[id].(progress := Connected)];
    }

    method DisconnectFilter(id: Id)
      modifies this`connections
      ensures connections == Disconnect(old(connections), id)
    {
      var kept := [];
      for i := 0 to |connections|
        invariant kept == Disconnect(connections[..i], id)
      {
        assert connections[..i + 1][..i] == connections[..i];
        if connections[i] != id {
          kept := kept + [connections[i]];
        }
      }
      assert connections[..|connections|] == connections;
      connections := kept;
    }

    /** The queues with an id posted to the context of every connection, in the order of connecting. */
    method PostToAll(id: Id) returns (posted: map<Context, seq<Delivery>>)
      requires Inv(View())
      ensures PostedTo(View(), connections, id, posted)
    {
      ghost var s := View();
      posted := queues;
      assert connections[..0] == [] && connections[..|connections|] == connections;
      assert forall i :: 0 <= i < |connections| ==> connections[i] in connections;
      for i := 0 to |connections|
        invariant PostedTo(s, connections[..i], id, posted)
      {
        PostOne(s, connections, i, id, posted);
        var c := calls[connections[i]].context;
        posted := posted[c := (if c in posted then posted[c] else []) + [Delivery(connections[i], id)]];
      }
    }

    /** Emitting an id reaches every live connection. */
    method EmitCall(id: Id)
      requires Inv(View()) && Enabled(View(), Emit(id))
      modifies this
      ensures View() == Apply(old(View()), Emit(id)) && Inv(View())
    {
      StepKeepsInv(View(), Emit(id));
      var posted := PostToAll(id);
      EmitPosts(View(), id, posted);
      hide Inv, Apply, PostedTo;
      queues := posted;
      calls := calls[id := calls[id].(progress := Emitted)];
    }

    /** The event loop of a context takes the first delivery: the filter of the connection compares the
        ids, and runs the method only for its own. */
    method DeliverNext(c: Context) returns (ran: bool)
      requires Inv(View()) && Enabled(View(), Deliver(c))
      modifies this
      ensures View() == Apply(old(View()), Deliver(c)) && Inv(View())
      ensures ran <==> Own(Queue(old(View()), c)[0])
    {
      ghost var s := View();
      assert TimelineOk(s, c);
      if Own(Queue(s, c)[0]) {
        OwnHead(s, c);
      }
      StepKeepsInv(s, Deliver(c));
      hide Inv, TimelineOk, Disconnect;
      var queue := queues[c];
      var d := queue[0];
      queues := queues[c := queue[1..]];
      ran := d.connection == d.emitted;
      if ran {
        calls := calls[d.connection := calls[d.connection].(progress := Done)];
        log := log + [Ran(d.connection, c)];
        if !calls[d.connection].block {
          DisconnectFilter(d.connection);
        }
      }
    }

    /** The end of a blocking call, whose loop saw the method done. */
    method EndBlocking(id: Id)
      requires Inv(View()) && Enabled(View(), Return(id))
      modifies this`connections
      ensures View() == Apply(old(View()), Return(id)) && Inv(View())
    {
      StepKeepsInv(View(), Return(id));
      hide Inv, Disconnect;
      DisconnectFilter(id);
    }
  }
}
