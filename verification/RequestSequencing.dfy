/** The queue of API requests: one at a time, each started by the end of the one before it
    (src/request-invoker.cpp, src/request-invoker.hpp).

    A signal is an ordered list of listeners.  What a running emission still has to call stands in `pending`, nested
    emissions in front; anything may be enqueued between two such calls, so handlers may enqueue as they like. */
module RequestSequencing {

  /** A connection to a request's `finished` signal. */
  datatype Listener = Invoke(id: nat) | Handler(name: nat)

  /** A call that an emission still has to make: for the end of request `of`, or for the shared signal. */
  datatype Call = Fire(of: nat, listener: Listener) | RefreshSlot(id: nat)

  /** A handler was called by the end of a request. */
  datatype HandlerCall = HandlerCall(of: nat, name: nat)

  datatype Sequencer = Sequencer(
    queue: seq<nat>,
    listeners: map<nat, seq<Listener>>, // connections to the `finished` signals
    refreshes: seq<nat>,                // requests connected to the shared `refreshFinished` signal, in order
    pending: seq<Call>,
    inFlight: set<nat>,                 // operations the network still works on
    enqueued: seq<nat>,                 // every request ever queued, in order
    invoked: seq<nat>,                  // every start of a request, in order
    finished: seq<nat>,                 // every end of a request, in order
    called: seq<HandlerCall>            // every call of a handler, in order
  )

  const EMPTY := Sequencer([], map[], [], [], {}, [], [], [], [])

  function ListenersOf(listeners: map<nat, seq<Listener>>, id: nat): seq<Listener> {
    if id in listeners then listeners[id] else []
  }

  function Connect(s: Sequencer, id: nat, l: Listener): Sequencer {
    s.(listeners := s.listeners[id := ListenersOf(s.listeners, id) + [l]])
  }

  function Start(s: Sequencer, id: nat): Sequencer {
    s.(inFlight := s.inFlight + {id}, invoked := s.invoked + [id])
  }

  /** `RequestInvoker::queue`: start at once, or with the end of the last request in the queue. */
  function Queue(s: Sequencer, id: nat): Sequencer {
    var s1 := s.(queue := s.queue + [id], enqueued := s.enqueued + [id]);
    if s.queue == [] then Start(s1, id) else Connect(s1, s.queue[|s.queue| - 1], Invoke(id))
  }

  /** `RequestInvoker::refresh`: connected to the shared signal before it is queued. */
  function Refresh(s: Sequencer, id: nat): Sequencer {
    Queue(s.(refreshes := s.refreshes + [id]), id)
  }

  function RemoveOne(queue: seq<nat>, id: nat): seq<nat> {
    if queue == [] then [] else if queue[0] == id then queue[1..] else [queue[0]] + RemoveOne(queue[1..], id)
  }

  /** The calls that the end of request `of` makes. */
  function Fires(of: nat, ls: seq<Listener>): seq<Call> {
    if ls == [] then [] else [Fire(of, ls[0])] + Fires(of, ls[1..])
  }

  function Slots(ids: seq<nat>): seq<Call> {
    if ids == [] then [] else [RefreshSlot(ids[0])] + Slots(ids[1..])
  }

  /** Leave the queue, then emit `finished`. */
  function Finish(s: Sequencer, id: nat): Sequencer {
    s.(queue := RemoveOne(s.queue, id), finished := s.finished + [id],
       pending := Fires(id, ListenersOf(s.listeners, id)) + s.pending)
  }

  /** The reply to an ordinary request arrives. */
  function ReplyArrived(s: Sequencer, id: nat): Sequencer {
    Finish(s.(inFlight := s.inFlight - {id}), id)
  }

  /** The shared signal: the refresh in flight is over, and every connected request is told. */
  function RefreshFinished(s: Sequencer): Sequencer {
    s.(inFlight := (set id | id in s.inFlight && id !in s.refreshes), pending := Slots(s.refreshes) + s.pending)
  }

  /** The answer to one refresh: the client emits the shared signal. */
  function RefreshAnswered(s: Sequencer, id: nat): Sequencer {
    s.(inFlight := s.inFlight - {id}, pending := Slots(s.refreshes) + s.pending)
  }

  /** The next call of the innermost emission. */
  function Deliver(s: Sequencer): Sequencer {
    if s.pending == [] then s
    else
      var s1 := s.(pending := s.pending[1..]);
      match s.pending[0]
      case Fire(_, Invoke(id)) => Start(s1, id)
      case Fire(of, Handler(name)) => s1.(called := s1.called + [HandlerCall(of, name)])
      case RefreshSlot(id) => Finish(s1, id)
  }

  /** Back in the event loop: finished requests are deleted, and with them their connections. */
  function Reap(s: Sequencer): Sequencer {
    s.(refreshes := Kept(s.refreshes, s.queue),
       listeners := (map id | id in s.listeners && id in s.queue :: s.listeners[id]))
  }

  function Kept(ids: seq<nat>, queue: seq<nat>): seq<nat> {
    if ids == [] then []
    else (if ids[0] in queue then [ids[0]] else []) + Kept(ids[1..], queue)
  }

  datatype Event =
    | RequestQueued(id: nat)
    | RefreshQueued(id: nat)
    | HandlerConnected(id: nat, name: nat)
    | Replied(id: nat)
    | StrayReplied(id: nat)
    | RefreshSignalled
    | CallMade
    | LoopTurned

  function Step(s: Sequencer, e: Event): Sequencer {
    match e
    case RequestQueued(id) => Queue(s, id)
    case RefreshQueued(id) => Refresh(s, id)
    case HandlerConnected(id, name) => Connect(s, id, Handler(name))
    case Replied(id) => ReplyArrived(s, id)
    case StrayReplied(id) => RefreshAnswered(s, id)
    case RefreshSignalled => RefreshFinished(s)
    case CallMade => Deliver(s)
    case LoopTurned => if s.pending == [] then Reap(s) else s
  }

  /** When the surroundings may cause an event: new requests are new objects, handlers are connected to requests in
      the queue, replies answer ordinary requests in flight, a stray reply answers a refresh that was told of its end
      before, and the shared signal is emitted once and only while every request connected to it is in flight. */
  predicate Enabled(s: Sequencer, e: Event) {
    match e
    case RequestQueued(id) => id !in s.enqueued
    case RefreshQueued(id) => id !in s.enqueued
    case HandlerConnected(id, _) => id in s.queue
    case Replied(id) => id in s.inFlight && id in s.queue && id !in s.refreshes
    case StrayReplied(id) => id in s.inFlight && id !in s.queue
    case RefreshSignalled => SignalIsForHead(s)
    case CallMade => true
    case LoopTurned => true
  }

  predicate SignalIsForHead(s: Sequencer) { ConnectedAreInFlight(s) && SlotsIn(s.pending) == [] }

  predicate ConnectedAreInFlight(s: Sequencer) {
    forall i :: 0 <= i < |s.refreshes| ==> s.refreshes[i] in s.inFlight
  }

  // ---- the invariant ----

  function Invokes(ls: seq<Listener>): seq<nat> {
    if ls == [] then [] else (if ls[0].Invoke? then [ls[0].id] else []) + Invokes(ls[1..])
  }

  function InvokesIn(pending: seq<Call>): seq<nat> {
    if pending == [] then []
    else (if pending[0].Fire? && pending[0].listener.Invoke? then [pending[0].listener.id] else [])
         + InvokesIn(pending[1..])
  }

  function SlotsIn(pending: seq<Call>): seq<nat> {
    if pending == [] then []
    else (if pending[0].RefreshSlot? then [pending[0].id] else []) + SlotsIn(pending[1..])
  }

  predicate Distinct(s: seq<nat>) {
    forall i, j :: 0 <= i < j < |s| ==> s[i] != s[j]
  }

  function Successor(queue: seq<nat>, i: nat): seq<nat> {
    if i + 1 < |queue| then [queue[i + 1]] else []
  }

  predicate ChainedAt(listeners: map<nat, seq<Listener>>, queue: seq<nat>, i: nat)
    requires i < |queue|
  {
    Invokes(ListenersOf(listeners, queue[i])) == Successor(queue, i)
  }

  /** Each queued request starts exactly its successor when it ends, and nothing else. */
  predicate Chained(listeners: map<nat, seq<Listener>>, queue: seq<nat>) {
    forall i :: 0 <= i < |queue| ==> ChainedAt(listeners, queue, i)
  }

  predicate Idle(s: Sequencer) {
    && s.queue == [] && s.inFlight == {} && s.invoked == s.finished
    && InvokesIn(s.pending) == [] && SlotsIn(s.pending) == []
  }

  /** The head of the queue is in flight. */
  predicate HeadBusy(s: Sequencer) {
    && s.queue != [] && s.inFlight == {s.queue[0]} && s.invoked == s.finished + [s.queue[0]]
    && InvokesIn(s.pending) == [] && SlotsIn(s.pending) == []
  }

  /** The head is about to be started by the emission that is running. */
  predicate HeadDue(s: Sequencer) {
    && s.queue != [] && s.inFlight == {} && s.invoked == s.finished
    && InvokesIn(s.pending) == [s.queue[0]] && SlotsIn(s.pending) == []
  }

  /** The head is a refresh that is over and about to be told so. */
  predicate HeadOver(s: Sequencer) {
    && s.queue != [] && s.inFlight == {} && s.invoked == s.finished + [s.queue[0]]
    && s.pending != [] && s.pending[0] == RefreshSlot(s.queue[0])
    && InvokesIn(s.pending) == [] && SlotsIn(s.pending) == [s.queue[0]]
  }

  predicate Recorded(s: Sequencer) {
    && s.enqueued == s.finished + s.queue
    && Distinct(s.enqueued) && Distinct(s.queue)
    && (forall id :: id in s.listeners ==> id in s.enqueued)
    && (forall i :: 0 <= i < |s.refreshes| ==> s.refreshes[i] in s.enqueued)
    && Distinct(s.refreshes)
  }

  predicate Ordered(s: Sequencer) {
    && Recorded(s)
    && Chained(s.listeners, s.queue)
    && (Idle(s) || HeadBusy(s) || HeadDue(s) || HeadOver(s))
  }

  // ---- sequences of listeners and calls ----

  lemma {:induction false} InvokesAdd(a: seq<Listener>, b: seq<Listener>)
    ensures Invokes(a + b) == Invokes(a) + Invokes(b)
  {
    if a == [] {
      assert a + b == b;
    } else {
      assert (a + b)[0] == a[0] && (a + b)[1..] == a[1..] + b;
      InvokesAdd(a[1..], b);
    }
  }

  lemma {:induction false} InvokesInAdd(a: seq<Call>, b: seq<Call>)
    ensures InvokesIn(a + b) == InvokesIn(a) + InvokesIn(b)
  {
    if a == [] {
      assert a + b == b;
    } else {
      assert (a + b)[0] == a[0] && (a + b)[1..] == a[1..] + b;
      InvokesInAdd(a[1..], b);
    }
  }

  lemma {:induction false} SlotsInAdd(a: seq<Call>, b: seq<Call>)
    ensures SlotsIn(a + b) == SlotsIn(a) + SlotsIn(b)
  {
    if a == [] {
      assert a + b == b;
    } else {
      assert (a + b)[0] == a[0] && (a + b)[1..] == a[1..] + b;
      SlotsInAdd(a[1..], b);
    }
  }

  lemma CallsAdd(a: seq<Call>, b: seq<Call>)
    ensures InvokesIn(a + b) == InvokesIn(a) + InvokesIn(b)
    ensures SlotsIn(a + b) == SlotsIn(a) + SlotsIn(b)
  {
    InvokesInAdd(a, b);
    SlotsInAdd(a, b);
  }

  lemma {:induction false} FiresCalls(of: nat, ls: seq<Listener>)
    ensures InvokesIn(Fires(of, ls)) == Invokes(ls) && SlotsIn(Fires(of, ls)) == []
  {
    if ls != [] {
      FiresCalls(of, ls[1..]);
    }
  }

  /** One call for each listener, in order. */
  lemma {:induction false} FiresAt(of: nat, ls: seq<Listener>)
    ensures |Fires(of, ls)| == |ls| && forall i :: 0 <= i < |ls| ==> Fires(of, ls)[i] == Fire(of, ls[i])
  {
    if ls != [] {
      FiresAt(of, ls[1..]);
    }
  }

  lemma {:induction false} SlotsCalls(ids: seq<nat>)
    ensures InvokesIn(Slots(ids)) == [] && SlotsIn(Slots(ids)) == ids
  {
    if ids != [] {
      SlotsCalls(ids[1..]);
    }
  }

  lemma {:induction false} KeptIsDistinct(ids: seq<nat>, queue: seq<nat>)
    requires Distinct(ids)
    ensures Distinct(Kept(ids, queue))
    ensures forall id :: id in Kept(ids, queue) <==> id in ids && id in queue
  {
    if ids != [] {
      KeptIsDistinct(ids[1..], queue);
    }
  }

  // ---- one step ----

  lemma QueueRecords(s: Sequencer, id: nat)
    requires Recorded(s) && id !in s.enqueued
    ensures Recorded(Queue(s, id))
  {
  }

  lemma QueueChains(s: Sequencer, id: nat)
    requires Recorded(s) && Chained(s.listeners, s.queue) && id !in s.enqueued
    ensures Chained(Queue(s, id).listeners, Queue(s, id).queue)
  {
    var s' := Queue(s, id);
    if s.queue == [] {
      assert ListenersOf(s.listeners, id) == [];
    } else {
      var last := |s.queue| - 1;
      assert s.queue[last] in s.enqueued;
      InvokesAdd(ListenersOf(s.listeners, s.queue[last]), [Invoke(id)]);
      forall i | 0 <= i < |s'.queue| ensures ChainedAt(s'.listeners, s'.queue, i) {
        if i < last {
          assert ChainedAt(s.listeners, s.queue, i);
        } else if i == last {
          assert ChainedAt(s.listeners, s.queue, last);
        } else {
          assert ListenersOf(s.listeners, id) == [];
        }
      }
    }
  }

  lemma QueueKeeps(s: Sequencer, id: nat)
    requires Ordered(s) && id !in s.enqueued
    ensures Ordered(Queue(s, id))
  {
    QueueRecords(s, id);
    QueueChains(s, id);
  }

  lemma RefreshKeeps(s: Sequencer, id: nat)
    requires Ordered(s) && id !in s.enqueued
    ensures Ordered(Refresh(s, id))
  {
    QueueKeeps(s, id);
    assert Refresh(s, id) == Queue(s, id).(refreshes := s.refreshes + [id]);
  }

  lemma ConnectKeeps(s: Sequencer, id: nat, name: nat)
    requires Ordered(s) && id in s.queue
    ensures Ordered(Connect(s, id, Handler(name)))
  {
    var s' := Connect(s, id, Handler(name));
    InvokesAdd(ListenersOf(s.listeners, id), [Handler(name)]);
    forall i | 0 <= i < |s.queue| ensures ChainedAt(s'.listeners, s.queue, i) {
      assert ChainedAt(s.listeners, s.queue, i);
    }
  }

  lemma FinishHeadRecords(s: Sequencer)
    requires Recorded(s) && Chained(s.listeners, s.queue) && s.queue != []
    ensures var s' := Finish(s, s.queue[0]);
      Recorded(s') && Chained(s'.listeners, s'.queue)
  {
    var s' := Finish(s, s.queue[0]);
    assert s.queue == [s.queue[0]] + s.queue[1..];
    assert s'.finished + s'.queue == s.enqueued;
    forall i | 0 <= i < |s'.queue| ensures ChainedAt(s'.listeners, s'.queue, i) {
      assert ChainedAt(s.listeners, s.queue, i + 1);
    }
  }

  /** The head leaves: what it emits is due for the next request, if there is one. */
  lemma FinishHeadKeeps(s: Sequencer)
    requires Recorded(s) && Chained(s.listeners, s.queue) && s.queue != [] && s.inFlight == {}
    requires s.invoked == s.finished + [s.queue[0]]
    requires InvokesIn(s.pending) == [] && SlotsIn(s.pending) == []
    ensures Ordered(Finish(s, s.queue[0]))
  {
    FinishHeadRecords(s);
    var ls := ListenersOf(s.listeners, s.queue[0]);
    FiresCalls(s.queue[0], ls);
    CallsAdd(Fires(s.queue[0], ls), s.pending);
    assert ChainedAt(s.listeners, s.queue, 0);
  }

  lemma ReplyKeeps(s: Sequencer, id: nat)
    requires Ordered(s) && id in s.inFlight
    ensures Ordered(ReplyArrived(s, id))
  {
    assert HeadBusy(s) && id == s.queue[0];
    var s1 := s.(inFlight := s.inFlight - {id});
    assert s1.inFlight == {};
    FinishHeadKeeps(s1);
  }

  lemma FirstOfCalls(pending: seq<Call>)
    requires pending != []
    ensures InvokesIn(pending) ==
      (if pending[0].Fire? && pending[0].listener.Invoke? then [pending[0].listener.id] else []) + InvokesIn(pending[1..])
    ensures SlotsIn(pending) == (if pending[0].RefreshSlot? then [pending[0].id] else []) + SlotsIn(pending[1..])
  {
  }

  lemma SlotDelivered(s: Sequencer, id: nat)
    requires Ordered(s) && s.pending != [] && s.pending[0] == RefreshSlot(id)
    ensures Ordered(Deliver(s))
  {
    hide InvokesIn, SlotsIn, Fires, Chained, Finish;
    FirstOfCalls(s.pending);
    assert HeadOver(s) && id == s.queue[0] && |SlotsIn(s.pending[1..])| == 0;
    FinishHeadKeeps(s.(pending := s.pending[1..]));
  }

  lemma InvokeDelivered(s: Sequencer, of: nat, id: nat)
    requires Ordered(s) && s.pending != [] && s.pending[0] == Fire(of, Invoke(id))
    ensures Ordered(Deliver(s))
  {
    hide InvokesIn, SlotsIn, Chained;
    FirstOfCalls(s.pending);
    assert HeadDue(s) && InvokesIn(s.pending)[0] == id && |InvokesIn(s.pending[1..])| == 0;
    assert HeadBusy(Deliver(s));
  }

  lemma HandlerDelivered(s: Sequencer)
    requires Ordered(s) && s.pending != [] && s.pending[0].Fire? && s.pending[0].listener.Handler?
    ensures Ordered(Deliver(s))
  {
    hide InvokesIn, SlotsIn, Chained;
    FirstOfCalls(s.pending);
  }

  lemma DeliverKeeps(s: Sequencer)
    requires Ordered(s) && s.pending != []
    ensures Ordered(Deliver(s))
  {
    hide Ordered, Deliver;
    match s.pending[0]
    case RefreshSlot(id) => SlotDelivered(s, id);
    case Fire(of, Invoke(id)) => InvokeDelivered(s, of, id);
    case Fire(_, Handler(_)) => HandlerDelivered(s);
  }

  lemma FirstTwoDiffer(ids: seq<nat>)
    requires Distinct(ids)
    ensures |ids| <= 1 || ids[0] != ids[1]
  {
  }

  lemma SignalKeeps(s: Sequencer)
    requires Ordered(s) && SignalIsForHead(s)
    ensures Ordered(RefreshFinished(s))
  {
    hide Chained, InvokesIn, SlotsIn;
    SlotsCalls(s.refreshes);
    CallsAdd(Slots(s.refreshes), s.pending);
    if s.refreshes == [] {
      assert RefreshFinished(s).inFlight == s.inFlight;
      assert Slots(s.refreshes) + s.pending == s.pending;
    } else {
      assert s.refreshes[0] in s.inFlight;
      assert HeadBusy(s) && s.refreshes[0] == s.queue[0];
      FirstTwoDiffer(s.refreshes);
      assert forall i :: 0 <= i < |s.refreshes| ==> s.refreshes[i] == s.queue[0];
      assert s.refreshes == [s.queue[0]];
      assert RefreshFinished(s).inFlight == {};
    }
  }

  lemma ReapKeeps(s: Sequencer)
    requires Ordered(s)
    ensures Ordered(Reap(s))
  {
    KeptIsDistinct(s.refreshes, s.queue);
    var s' := Reap(s);
    forall i | 0 <= i < |s.queue| ensures ChainedAt(s'.listeners, s.queue, i) {
      assert ChainedAt(s.listeners, s.queue, i) && s.queue[i] in s.queue;
    }
  }

  lemma StepKeeps(s: Sequencer, e: Event)
    requires Ordered(s) && Enabled(s, e)
    ensures Ordered(Step(s, e))
  {
    match e
    case RequestQueued(id) => QueueKeeps(s, id);
    case RefreshQueued(id) => RefreshKeeps(s, id);
    case HandlerConnected(id, name) => ConnectKeeps(s, id, name);
    case Replied(id) => ReplyKeeps(s, id);
    case StrayReplied(id) => assert false;
    case RefreshSignalled => SignalKeeps(s);
    case CallMade =>
      if s.pending != [] {
        DeliverKeeps(s);
      }
    case LoopTurned => ReapKeeps(s);
  }

  // ---- whole runs ----

  function Run(s: Sequencer, events: seq<Event>): Sequencer
    decreases |events|
  {
    if events == [] then s else Step(Run(s, events[..|events| - 1]), events[|events| - 1])
  }

  /** Each event is enabled when it happens. */
  predicate Possible(s: Sequencer, events: seq<Event>)
    decreases |events|
  {
    events == [] || (var before := events[..|events| - 1];
                     Possible(s, before) && Enabled(Run(s, before), events[|events| - 1]))
  }

  lemma {:induction false} RunKeeps(s: Sequencer, events: seq<Event>)
    requires Ordered(s) && Possible(s, events)
    ensures Ordered(Run(s, events))
    decreases |events|
  {
    if events != [] {
      RunKeeps(s, events[..|events| - 1]);
      StepKeeps(Run(s, events[..|events| - 1]), events[|events| - 1]);
    }
  }

  /** What can be observed of the requests: at most one is in flight, none is started twice, and they start and end
      in the order in which they were enqueued. */
  ghost predicate Sequential(s: Sequencer) {
    && |s.inFlight| <= 1
    && Distinct(s.invoked)
    && s.invoked <= s.enqueued
    && s.finished <= s.invoked
    && s.enqueued == s.finished + s.queue
  }

  /** In every run from an empty sequencer, however handlers enqueue, the requests are sequential. */
  lemma OneAtATimeInOrder(events: seq<Event>)
    requires Possible(EMPTY, events)
    ensures Sequential(Run(EMPTY, events))
  {
    hide Sequential;
    RunKeeps(EMPTY, events);
    OrderedIsSequential(Run(EMPTY, events));
  }

  lemma OrderedIsSequential(s: Sequencer)
    requires Ordered(s)
    ensures Sequential(s)
  {
    if s.queue != [] {
      assert s.enqueued == (s.finished + [s.queue[0]]) + s.queue[1..];
    }
    PrefixIsDistinct(s.invoked, s.enqueued);
  }

  lemma PrefixIsDistinct(a: seq<nat>, b: seq<nat>)
    requires a <= b && Distinct(b)
    ensures Distinct(a)
  {
    assert forall i :: 0 <= i < |a| ==> a[i] == b[i];
  }

  // ---- the shared refresh signal ----

  /** What calls made by emissions leave alone: they only add to what was started and ended, and what they start stays
      in flight. */
  ghost predicate Emitted(s: Sequencer, t: Sequencer) {
    && t.listeners == s.listeners && t.enqueued == s.enqueued
    && s.inFlight <= t.inFlight && s.invoked <= t.invoked && s.finished <= t.finished
    && (Distinct(s.queue) ==> Distinct(t.queue))
    && forall i :: |s.invoked| <= i < |t.invoked| ==> t.invoked[i] in t.inFlight
  }

  lemma {:induction false} RemoveFromDistinct(queue: seq<nat>, id: nat)
    requires Distinct(queue)
    ensures Distinct(RemoveOne(queue, id)) && forall k :: k in RemoveOne(queue, id) <==> k in queue && k != id
  {
    if queue != [] {
      var rest := queue[1..];
      assert forall i :: 0 <= i < |rest| ==> rest[i] == queue[i + 1] && rest[i] != queue[0];
      assert queue[0] !in rest && forall k :: k in queue <==> k == queue[0] || k in rest;
      if queue[0] != id {
        RemoveFromDistinct(rest, id);
        var r := RemoveOne(rest, id);
        assert forall i :: 0 <= i < |r| ==> r[i] in r;
      }
    }
  }

  lemma DeliverEmits(s: Sequencer)
    ensures Emitted(s, Deliver(s))
  {
    if s.pending != [] && s.pending[0].RefreshSlot? && Distinct(s.queue) {
      RemoveFromDistinct(s.queue, s.pending[0].id);
    }
  }

  lemma {:induction false} RunThenRun(s: Sequencer, a: seq<Event>, b: seq<Event>)
    ensures Run(s, a + b) == Run(Run(s, a), b)
    ensures Possible(s, a) && Possible(Run(s, a), b) ==> Possible(s, a + b)
    decreases |b|
  {
    if b == [] {
      assert a + b == a;
    } else {
      assert (a + b)[..|a + b| - 1] == a + b[..|b| - 1];
      RunThenRun(s, a, b[..|b| - 1]);
    }
  }

  lemma RunOne(s: Sequencer, e: Event)
    ensures Run(s, [e]) == Step(s, e)
    ensures Possible(s, [e]) <==> Enabled(s, e)
  {
    assert [e][..0] == [];
    assert Run(s, []) == s;
  }

  /** Nothing but calls of the running emissions. */
  predicate OnlyCalls(events: seq<Event>) {
    forall i :: 0 <= i < |events| ==> events[i] == CallMade
  }

  /** Calls, and at most one further request, at the end. */
  predicate CallsAndOneRequest(events: seq<Event>) {
    forall i :: 0 <= i < |events| ==> events[i] == CallMade || (i == |events| - 1 && events[i].RequestQueued?)
  }

  lemma EmittedFurther(s: Sequencer, t: Sequencer, u: Sequencer)
    requires Emitted(s, t) && Emitted(t, u)
    ensures Emitted(s, u)
  {
    assert forall i :: |s.invoked| <= i < |t.invoked| ==> u.invoked[i] == t.invoked[i];
  }

  lemma NothingEmitted(s: Sequencer)
    ensures Emitted(s, s) && Run(s, []) == s && Possible(s, [])
  {
  }

  /** The first of the calls ahead of `rest`, and what it puts in front of the others. */
  lemma FirstCall(s: Sequencer, front: seq<Call>, rest: seq<Call>) returns (front': seq<Call>)
    requires s.pending == front + rest && front != []
    ensures Deliver(s).pending == front' + rest
    ensures |SlotsIn(front')| < |SlotsIn(front)| || (|SlotsIn(front')| == |SlotsIn(front)| && |front'| < |front|)
  {
    hide Fires, InvokesIn;
    assert s.pending[0] == front[0] && s.pending[1..] == front[1..] + rest;
    match front[0]
    case RefreshSlot(id) =>
      var added := Fires(id, ListenersOf(s.listeners, id));
      front' := added + front[1..];
      FiresCalls(id, ListenersOf(s.listeners, id));
      SlotsInAdd(added, front[1..]);
      assert Deliver(s).pending == added + (front[1..] + rest);
      assert (added + front[1..]) + rest == added + (front[1..] + rest);
    case Fire(_, _) =>
      front' := front[1..];
  }

  /** The calls ahead of `rest` get made, whatever they are and whatever they add. */
  lemma {:induction false} ReachCall(s: Sequencer, front: seq<Call>, rest: seq<Call>) returns (calls: seq<Event>)
    requires s.pending == front + rest
    ensures Possible(s, calls) && OnlyCalls(calls)
    ensures Run(s, calls).pending == rest && Emitted(s, Run(s, calls))
    decreases |SlotsIn(front)|, |front|
  {
    hide Emitted, Possible, Run, SlotsIn, Deliver;
    if front == [] {
      NothingEmitted(s);
      calls := [];
    } else {
      var front' := FirstCall(s, front, rest);
      DeliverEmits(s);
      RunOne(s, CallMade);
      var more := ReachCall(Deliver(s), front', rest);
      RunThenRun(s, [CallMade], more);
      EmittedFurther(s, Deliver(s), Run(Deliver(s), more));
      calls := [CallMade] + more;
    }
  }

  /** Emissions reach `call`, and make it. */
  lemma MakeCall(s: Sequencer, front: seq<Call>, call: Call, rest: seq<Call>)
    returns (calls: seq<Event>, at: Sequencer)
    requires s.pending == front + [call] + rest
    ensures Possible(s, calls) && OnlyCalls(calls) && Emitted(s, at) && at.pending == [call] + rest
    ensures Run(s, calls) == Deliver(at) && Emitted(s, Deliver(at))
  {
    assert s.pending == front + ([call] + rest);
    calls := ReachCall(s, front, [call] + rest);
    at := Run(s, calls);
    RunOne(at, CallMade);
    RunThenRun(s, calls, [CallMade]);
    DeliverEmits(at);
    calls := calls + [CallMade];
  }

  lemma {:induction false} SlotsAdd(a: seq<nat>, b: seq<nat>)
    ensures Slots(a + b) == Slots(a) + Slots(b)
  {
    if a == [] {
      assert a + b == b;
    } else {
      assert (a + b)[0] == a[0] && (a + b)[1..] == a[1..] + b;
      SlotsAdd(a[1..], b);
    }
  }

  lemma {:induction false} FiresSplit(of: nat, ls: seq<Listener>, id: nat) returns (before: seq<Call>, after: seq<Call>)
    requires id in Invokes(ls)
    ensures Fires(of, ls) == before + [Fire(of, Invoke(id))] + after
  {
    if ls[0] == Invoke(id) {
      before, after := [], Fires(of, ls[1..]);
    } else {
      before, after := FiresSplit(of, ls[1..], id);
      before := [Fire(of, ls[0])] + before;
    }
  }

  lemma {:induction false} Unused(ids: seq<nat>) returns (id: nat)
    ensures forall i :: 0 <= i < |ids| ==> ids[i] < id
  {
    if ids == [] {
      id := 0;
    } else {
      id := Unused(ids[1..]);
      id := if ids[0] < id then id else ids[0] + 1;
    }
  }

  lemma TwoInFlight(inFlight: set<nat>, a: nat, b: nat)
    requires a in inFlight && b in inFlight && a != b
    ensures |inFlight| >= 2
  {
    assert {a, b} <= inFlight;
    assert |inFlight| == |inFlight - {a, b}| + |{a, b}|;
  }

  lemma SignalPending(s: Sequencer, k: nat)
    requires k < |s.refreshes|
    ensures RefreshFinished(s).pending
         == Slots(s.refreshes[..k]) + [RefreshSlot(s.refreshes[k])] + (Slots(s.refreshes[k + 1..]) + s.pending)
  {
    var first, last := s.refreshes[..k], s.refreshes[k + 1..];
    var r := s.refreshes[k];
    assert s.refreshes == first + ([r] + last);
    SlotsAdd(first, [r] + last);
    assert Slots([r] + last) == [RefreshSlot(r)] + Slots(last);
  }

  /** The signal, and the calls up to the end of the connected refresh `r`. */
  lemma ReachEnd(s: Sequencer, r: nat) returns (calls: seq<Event>, at: Sequencer)
    requires r in s.refreshes
    ensures var v := RefreshFinished(s);
      Possible(v, calls) && Run(v, calls) == Finish(at, r) && Emitted(v, at) && Emitted(v, Finish(at, r))
    ensures OnlyCalls(calls)
  {
    hide Emitted, Possible, Run, Slots;
    var k :| 0 <= k < |s.refreshes| && s.refreshes[k] == r;
    SignalPending(s, k);
    var v, rest := RefreshFinished(s), Slots(s.refreshes[k + 1..]) + s.pending;
    var before;
    calls, before := MakeCall(v, Slots(s.refreshes[..k]), RefreshSlot(r), rest);
    at := before.(pending := before.pending[1..]);
    assert Deliver(before) == Finish(at, r);
    SameButPending(v, before, before.pending[1..]);
  }

  lemma SameButPending(s: Sequencer, t: Sequencer, pending: seq<Call>)
    requires Emitted(s, t)
    ensures Emitted(s, t.(pending := pending))
  {
  }

  /** A connected refresh that is not in flight and has not ended stands in the queue, not yet started. */
  lemma WaitingPlace(s: Sequencer, r: nat) returns (k: nat)
    requires Ordered(s) && SlotsIn(s.pending) == []
    requires r in s.refreshes && r !in s.inFlight && r !in s.finished
    ensures k < |s.queue| && s.queue[k] == r && r !in s.invoked
    ensures s.enqueued[|s.finished| + k] == r && |s.enqueued| == |s.finished| + |s.queue|
  {
    assert r in s.enqueued;
    k :| 0 <= k < |s.queue| && s.queue[k] == r;
  }

  /** An ended request is among those started, and stays where it was enqueued. */
  lemma EndedInOrder(t: Sequencer, r: nat, at: nat)
    requires Sequential(t) && Distinct(t.enqueued) && r in t.finished
    requires at < |t.enqueued| && t.enqueued[at] == r
    ensures r in t.invoked && at < |t.finished|
  {
    var i :| 0 <= i < |t.finished| && t.finished[i] == r;
    assert t.invoked[i] == r && t.enqueued[i] == r;
  }

  /** If a refresh that is connected to the shared signal is not in flight when the signal is emitted, then some
      continuation, of nothing but the calls of that emission and at most one further request, is not sequential:
      the refresh ends twice, or before it starts, or is overtaken by the next request. */
  lemma SignalBreaksOrder(s: Sequencer, r: nat) returns (events: seq<Event>)
    requires Ordered(s) && SlotsIn(s.pending) == []
    requires r in s.refreshes && r !in s.inFlight
    ensures Possible(RefreshFinished(s), events) && !Sequential(Run(RefreshFinished(s), events))
    ensures CallsAndOneRequest(events)
  {
    hide Possible, Run, Emitted, Finish, Sequential, Ordered;
    var at;
    events, at := ReachEnd(s, r);
    if !Sequential(Finish(at, r)) {
      return;
    }
    if r in s.finished {
      EndsOnce(s, at, r);
    } else {
      var more := StillInFlight(s, at, r);
      RunThenRun(RefreshFinished(s), events, more);
      events := events + more;
    }
  }

  /** A sequential state has no request that ended twice. */
  lemma EndsOnce(s: Sequencer, at: Sequencer, r: nat)
    requires r in s.finished && Emitted(RefreshFinished(s), at)
    ensures !Sequential(Finish(at, r))
  {
    var t := Finish(at, r);
    var i :| 0 <= i < |s.finished| && s.finished[i] == r;
    assert t.finished[i] == r && t.finished[|at.finished|] == r;
    if t.finished <= t.invoked {
      assert t.invoked[i] == t.invoked[|at.finished|] == r;
    }
  }

  /** A refresh that waited when the signal came has started meanwhile, and nothing but a second signal takes it out
      of flight. */
  lemma StillInFlight(s: Sequencer, at: Sequencer, r: nat) returns (more: seq<Event>)
    requires Ordered(s) && SlotsIn(s.pending) == []
    requires r in s.refreshes && r !in s.inFlight && r !in s.finished
    requires Emitted(RefreshFinished(s), at) && Emitted(RefreshFinished(s), Finish(at, r)) && Sequential(Finish(at, r))
    ensures Possible(Finish(at, r), more) && !Sequential(Run(Finish(at, r), more)) && CallsAndOneRequest(more)
  {
    hide Possible, Run, Sequential, Idle, HeadBusy, HeadDue, HeadOver, SlotsIn, Slots, Fires;
    var t := Finish(at, r);
    var k := WaitingPlace(s, r);
    EndedInOrder(t, r, |s.finished| + k);
    var i :| 0 <= i < |t.invoked| && t.invoked[i] == r;
    assert r in t.inFlight;
    if k + 1 < |s.queue| {
      more := OvertakenBySuccessor(s, at, r, k);
    } else {
      LastEnded(s, t, r);
      more := OvertakenByNewcomer(t, r);
    }
  }

  /** The end of a request starts the one behind it. */
  lemma OvertakenBySuccessor(s: Sequencer, at: Sequencer, r: nat, k: nat) returns (more: seq<Event>)
    requires Recorded(s) && Chained(s.listeners, s.queue) && k + 1 < |s.queue| && s.queue[k] == r
    requires at.listeners == s.listeners && r in at.inFlight
    ensures Possible(Finish(at, r), more) && !Sequential(Run(Finish(at, r), more)) && CallsAndOneRequest(more)
  {
    hide Possible, Run, Fires, RemoveOne, InvokesIn, SlotsIn;
    var t, next := Finish(at, r), s.queue[k + 1];
    assert ChainedAt(s.listeners, s.queue, k);
    assert Invokes(ListenersOf(s.listeners, r)) == [next];
    var before, after := FiresSplit(r, ListenersOf(s.listeners, r), next);
    assert t.pending == before + [Fire(r, Invoke(next))] + (after + at.pending);
    var u;
    more, u := MakeCall(t, before, Fire(r, Invoke(next)), after + at.pending);
    TwoInFlight(Deliver(u).inFlight, r, next);
  }

  /** A request that meets an empty queue starts at once. */
  lemma OvertakenByNewcomer(t: Sequencer, r: nat) returns (more: seq<Event>)
    requires t.queue == [] && r in t.inFlight && r in t.enqueued
    ensures Possible(t, more) && !Sequential(Run(t, more)) && CallsAndOneRequest(more)
  {
    var id := Unused(t.enqueued);
    more := [RequestQueued(id)];
    RunOne(t, RequestQueued(id));
    TwoInFlight(Queue(t, id).inFlight, r, id);
  }

  /** When the last request has ended in order, the queue is empty. */
  lemma LastEnded(s: Sequencer, t: Sequencer, r: nat)
    requires Recorded(s) && s.queue != [] && s.queue[|s.queue| - 1] == r
    requires Sequential(t) && t.enqueued == s.enqueued && r in t.finished
    ensures t.queue == [] && r in t.enqueued
  {
    assert s.enqueued[|s.enqueued| - 1] == r;
    EndedInOrder(t, r, |s.enqueued| - 1);
  }

  /** The shared signal is harmless, whatever follows, if and only if every connected refresh is in flight when it
      is emitted. */
  lemma SignalKeepsOrderIff(s: Sequencer)
    requires Ordered(s) && SlotsIn(s.pending) == []
    ensures ConnectedAreInFlight(s) <==>
      forall events :: Possible(RefreshFinished(s), events) ==> Sequential(Run(RefreshFinished(s), events))
  {
    if ConnectedAreInFlight(s) {
      SignalKeeps(s);
      forall events | Possible(RefreshFinished(s), events) ensures Sequential(Run(RefreshFinished(s), events)) {
        RunKeeps(RefreshFinished(s), events);
        OrderedIsSequential(Run(RefreshFinished(s), events));
      }
    } else {
      var i :| 0 <= i < |s.refreshes| && s.refreshes[i] !in s.inFlight;
      var events := SignalBreaksOrder(s, s.refreshes[i]);
    }
  }

  lemma RunMore(s: Sequencer, events: seq<Event>, e: Event)
    ensures Run(s, events + [e]) == Step(Run(s, events), e)
  {
  }

  /** Two refreshes and a request are queued, and the first refresh has just ended. */
  const OVERLAP := Sequencer([1, 2, 3], map[1 := [Invoke(2)], 2 := [Invoke(3)]], [1, 2],
                             [RefreshSlot(1), RefreshSlot(2)], {}, [1, 2, 3], [1], [], [])

  const OVERLAP_EVENTS := [RefreshQueued(1), RefreshQueued(2), RequestQueued(3), RefreshSignalled]

  const OVERLAP_FIRST := Sequencer([1], map[], [1], [], {1}, [1], [1], [], [])
  const OVERLAP_SECOND := Sequencer([1, 2], map[1 := [Invoke(2)]], [1, 2], [], {1}, [1, 2], [1], [], [])

  lemma OverlapQueues()
    ensures Refresh(EMPTY, 1) == OVERLAP_FIRST && Refresh(OVERLAP_FIRST, 2) == OVERLAP_SECOND
  {
    var s1 := Refresh(EMPTY, 1);
    assert s1.queue == [1] && s1.refreshes == [1] && s1.inFlight == {1} && s1.enqueued == [1] && s1.invoked == [1];
    var s2 := Refresh(OVERLAP_FIRST, 2);
    assert s2.queue == [1, 2] && s2.refreshes == [1, 2] && s2.enqueued == [1, 2];
    assert s2.listeners[1] == [Invoke(2)] && s2.listeners == map[1 := [Invoke(2)]];
  }

  lemma OverlapSignals()
    ensures var s3 := OVERLAP.(pending := [], inFlight := {1});
      Queue(OVERLAP_SECOND, 3) == s3 && RefreshFinished(s3) == OVERLAP
  {
    var s3 := Queue(OVERLAP_SECOND, 3);
    assert s3.queue == [1, 2, 3] && s3.enqueued == [1, 2, 3];
    assert s3.listeners[2] == [Invoke(3)] && s3.listeners == map[1 := [Invoke(2)], 2 := [Invoke(3)]];
    assert Slots([2]) == [RefreshSlot(2)];
    assert RefreshFinished(s3).pending == [RefreshSlot(1), RefreshSlot(2)];
    assert RefreshFinished(s3).inFlight == {};
  }

  lemma SignalReachesBoth()
    ensures Run(EMPTY, OVERLAP_EVENTS) == OVERLAP
  {
    OverlapQueues();
    OverlapSignals();
    RunMore(EMPTY, [], RefreshQueued(1));
    RunMore(EMPTY, [] + [RefreshQueued(1)], RefreshQueued(2));
    RunMore(EMPTY, [] + [RefreshQueued(1)] + [RefreshQueued(2)], RequestQueued(3));
    RunMore(EMPTY, [] + [RefreshQueued(1)] + [RefreshQueued(2)] + [RequestQueued(3)], RefreshSignalled);
    assert [] + [RefreshQueued(1)] + [RefreshQueued(2)] + [RequestQueued(3)] + [RefreshSignalled] == OVERLAP_EVENTS;
  }

  /** Two refreshes in the queue: the one signal ends both, and the request behind them is started while the
      second refresh is still in flight. */
  lemma TwoRefreshesOverlap()
    ensures Run(EMPTY, OVERLAP_EVENTS) == OVERLAP
    ensures Deliver(Deliver(Deliver(Deliver(OVERLAP)))).inFlight == {2, 3}
  {
    SignalReachesBoth();
    var s1 := Deliver(OVERLAP);
    assert Fires(1, [Invoke(2)]) == [Fire(1, Invoke(2))];
    assert s1.pending == [Fire(1, Invoke(2)), RefreshSlot(2)] && s1.queue == [2, 3];
    var s2 := Deliver(s1);
    assert s2.pending == [RefreshSlot(2)] && s2.inFlight == {2};
    var s3 := Deliver(s2);
    assert Fires(2, [Invoke(3)]) == [Fire(2, Invoke(3))];
    assert s3.pending == [Fire(2, Invoke(3))];
  }
}
