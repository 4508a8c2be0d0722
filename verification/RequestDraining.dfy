/** What becomes of the queue when the network answers and nothing new is queued (src/request-invoker.cpp:91-190).

    The answers may come in any order.  A refresh that was told of its end by the answer to another one is still in
    flight; its own answer emits the shared signal again. */
module RequestDraining {
  import opened RequestSequencing

  /** Let the running emission make its next call; with none running, let the network answer the operation `id`, if
      it is in flight. */
  function Advance(s: Sequencer, id: nat): Sequencer {
    if s.pending != [] then Deliver(s)
    else
      var r := Reap(s);
      if id !in r.inFlight then r
      else if id in r.queue && id !in r.refreshes then ReplyArrived(r, id)
      else RefreshAnswered(r, id)
  }

  function AdvanceBy(s: Sequencer, answers: seq<nat>): (t: Sequencer)
    ensures t.enqueued == s.enqueued
    decreases |answers|
  {
    if answers == [] then s else Advance(AdvanceBy(s, answers[..|answers| - 1]), answers[|answers| - 1])
  }

  predicate Answers(s: Sequencer, id: nat) { s.pending != [] || s.inFlight == {} || id in s.inFlight }

  /** The network goes on answering: between emissions each answer is for an operation in flight, if there is one. */
  predicate Answering(s: Sequencer, answers: seq<nat>)
    decreases |answers|
  {
    answers == [] || (var before := answers[..|answers| - 1];
                      Answering(s, before) && Answers(AdvanceBy(s, before), answers[|answers| - 1]))
  }

  /** A refresh that the shared signal has not reached yet. */
  predicate Awaits(s: Sequencer, id: nat) { id in s.refreshes && id !in SlotsIn(s.pending) }

  /** At most one queued refresh still waits for the shared signal. */
  predicate OneRefresh(s: Sequencer) {
    forall i, j :: 0 <= i < j < |s.queue| ==> !Awaits(s, s.queue[i]) || !Awaits(s, s.queue[j])
  }

  /** The queued refreshes that still wait for the shared signal stand next to each other. */
  predicate Contiguous(s: Sequencer) {
    forall i, j, k :: 0 <= i < j < k < |s.queue| && Awaits(s, s.queue[i]) && Awaits(s, s.queue[k])
      ==> Awaits(s, s.queue[j])
  }

  /** Nothing is left, and everything was started and ended once, in order. */
  predicate Drained(s: Sequencer) {
    s.queue == [] && s.pending == [] && s.inFlight == {} && s.finished == s.invoked == s.enqueued
  }

  // ---- what is left to do ----

  function ListenersWeight(ls: seq<Listener>): nat {
    if ls == [] then 0 else (if ls[0].Invoke? then 2 else 1) + ListenersWeight(ls[1..])
  }

  function CallsWeight(pending: seq<Call>): nat {
    if pending == [] then 0
    else (if pending[0].RefreshSlot? then 0 else if pending[0].listener.Invoke? then 2 else 1)
         + CallsWeight(pending[1..])
  }

  function QueueWeight(queue: seq<nat>, listeners: map<nat, seq<Listener>>): nat {
    if queue == [] then 0 else 1 + ListenersWeight(ListenersOf(listeners, queue[0])) + QueueWeight(queue[1..], listeners)
  }

  function Work(s: Sequencer): nat {
    QueueWeight(s.queue, s.listeners) + CallsWeight(s.pending) + |s.inFlight|
  }

  lemma {:induction false} CallsWeightAdds(a: seq<Call>, b: seq<Call>)
    ensures CallsWeight(a + b) == CallsWeight(a) + CallsWeight(b)
  {
    if a == [] {
      assert a + b == b;
    } else {
      assert (a + b)[0] == a[0] && (a + b)[1..] == a[1..] + b;
      CallsWeightAdds(a[1..], b);
    }
  }

  lemma {:induction false} FiresWeight(of: nat, ls: seq<Listener>)
    ensures CallsWeight(Fires(of, ls)) == ListenersWeight(ls)
  {
    if ls != [] {
      FiresWeight(of, ls[1..]);
    }
  }

  lemma {:induction false} SlotsWeight(ids: seq<nat>)
    ensures CallsWeight(Slots(ids)) == 0
  {
    if ids != [] {
      SlotsWeight(ids[1..]);
    }
  }

  lemma {:induction false} SameWeight(queue: seq<nat>, a: map<nat, seq<Listener>>, b: map<nat, seq<Listener>>)
    requires forall id :: id in queue ==> ListenersOf(a, id) == ListenersOf(b, id)
    ensures QueueWeight(queue, a) == QueueWeight(queue, b)
  {
    if queue != [] {
      assert queue[0] in queue && forall id :: id in queue[1..] ==> id in queue;
      SameWeight(queue[1..], a, b);
    }
  }

  lemma FinishWorks(s: Sequencer)
    requires s.queue != []
    ensures Work(Finish(s, s.queue[0])) < Work(s)
  {
    var ls := ListenersOf(s.listeners, s.queue[0]);
    FiresWeight(s.queue[0], ls);
    CallsWeightAdds(Fires(s.queue[0], ls), s.pending);
  }

  lemma ReapWorks(s: Sequencer)
    ensures Work(Reap(s)) == Work(s)
  {
    SameWeight(s.queue, s.listeners, Reap(s).listeners);
  }

  predicate Quiet(s: Sequencer) { s.pending == [] && s.inFlight == {} }

  /** Whatever ends next is the head of the queue, or has left it. */
  predicate HeadIsNext(s: Sequencer) {
    if s.pending == [] then forall id :: id in s.inFlight && id in s.queue ==> id == s.queue[0]
    else s.pending[0].RefreshSlot? ==> s.queue != [] && s.pending[0].id == s.queue[0]
  }

  lemma DeliverWorks(s: Sequencer)
    requires HeadIsNext(s) && s.pending != []
    ensures Work(Deliver(s)) < Work(s)
  {
    var s1 := s.(pending := s.pending[1..]);
    match s.pending[0]
    case RefreshSlot(id) => FinishWorks(s1);
    case Fire(_, _) =>
  }

  lemma AdvanceWorks(s: Sequencer, id: nat)
    requires HeadIsNext(s) && Answers(s, id) && !Quiet(s)
    ensures Work(Advance(s, id)) < Work(s)
  {
    hide Work, Deliver, Finish;
    if s.pending != [] {
      DeliverWorks(s);
    } else {
      var r := Reap(s);
      ReapWorks(s);
      FlightEnds(r, id);
      if id in r.queue && id !in r.refreshes {
        FinishWorks(r.(inFlight := r.inFlight - {id}));
      } else {
        AnswerWorks(r, id);
      }
    }
  }

  lemma FlightEnds(r: Sequencer, id: nat)
    requires id in r.inFlight
    ensures Work(r.(inFlight := r.inFlight - {id})) < Work(r)
  {
  }

  lemma AnswerWorks(r: Sequencer, id: nat)
    requires id in r.inFlight && r.pending == []
    ensures Work(RefreshAnswered(r, id)) < Work(r)
  {
    SlotsWeight(r.refreshes);
    assert Slots(r.refreshes) + r.pending == Slots(r.refreshes);
  }

  // ---- refreshes are connected in the order in which they are enqueued ----

  ghost predicate Arranged(s: Sequencer) { Kept(s.enqueued, s.refreshes) == s.refreshes }

  lemma {:induction false} KeptAreQueued(ids: seq<nat>, queue: seq<nat>)
    ensures forall id :: id in Kept(ids, queue) <==> id in ids && id in queue
  {
    if ids != [] {
      KeptAreQueued(ids[1..], queue);
    }
  }

  lemma {:induction false} KeptAdds(a: seq<nat>, b: seq<nat>, queue: seq<nat>)
    ensures Kept(a + b, queue) == Kept(a, queue) + Kept(b, queue)
  {
    if a == [] {
      assert a + b == b;
    } else {
      assert (a + b)[0] == a[0] && (a + b)[1..] == a[1..] + b;
      KeptAdds(a[1..], b, queue);
      var first, rest := if a[0] in queue then [a[0]] else [], Kept(a[1..], queue);
      assert Kept(a, queue) == first + rest && Kept(a + b, queue) == first + (rest + Kept(b, queue));
    }
  }

  lemma {:induction false} KeptAlike(ids: seq<nat>, a: seq<nat>, b: seq<nat>)
    requires forall id :: id in ids ==> (id in a <==> id in b)
    ensures Kept(ids, a) == Kept(ids, b)
  {
    if ids != [] {
      assert ids[0] in ids && forall id :: id in ids[1..] ==> id in ids;
      KeptAlike(ids[1..], a, b);
    }
  }

  lemma {:induction false} KeptTwice(ids: seq<nat>, a: seq<nat>, b: seq<nat>)
    ensures Kept(Kept(ids, a), b) == Kept(ids, Kept(a, b))
  {
    KeptAreQueued(a, b);
    if ids != [] {
      KeptTwice(ids[1..], a, b);
      var first := if ids[0] in a then [ids[0]] else [];
      KeptAdds(first, Kept(ids[1..], a), b);
    }
  }

  lemma ReapArranges(s: Sequencer)
    requires Arranged(s)
    ensures Arranged(Reap(s))
  {
    KeptTwice(s.enqueued, s.refreshes, s.queue);
  }

  lemma EnqueuedArranges(s: Sequencer, id: nat)
    requires Arranged(s) && Recorded(s) && id !in s.enqueued
    ensures Kept(s.enqueued + [id], s.refreshes) == s.refreshes
    ensures Kept(s.enqueued + [id], s.refreshes + [id]) == s.refreshes + [id]
  {
    KeptAdds(s.enqueued, [id], s.refreshes);
    KeptAdds(s.enqueued, [id], s.refreshes + [id]);
    KeptAlike(s.enqueued, s.refreshes, s.refreshes + [id]);
  }

  lemma StepArranges(s: Sequencer, e: Event)
    requires Arranged(s) && Recorded(s) && Enabled(s, e)
    ensures Arranged(Step(s, e))
  {
    hide Kept, Recorded;
    match e
    case RequestQueued(id) => EnqueuedArranges(s, id);
    case RefreshQueued(id) => EnqueuedArranges(s, id);
    case LoopTurned => ReapArranges(s);
    case _ =>
  }

  /** In every run the refreshes are connected to the shared signal in the order in which they were enqueued. */
  lemma {:induction false} RunArranges(events: seq<Event>)
    requires Possible(EMPTY, events)
    ensures Ordered(Run(EMPTY, events)) && Arranged(Run(EMPTY, events))
    decreases |events|
  {
    hide Arranged;
    RunKeeps(EMPTY, events);
    if events == [] {
      NothingConnected(EMPTY);
    } else {
      RunArranges(events[..|events| - 1]);
      StepArranges(Run(EMPTY, events[..|events| - 1]), events[|events| - 1]);
    }
  }

  lemma NothingConnected(s: Sequencer)
    requires s.enqueued == [] && s.refreshes == []
    ensures Arranged(s)
  {
  }

  lemma AdvanceArranges(s: Sequencer, id: nat)
    requires Arranged(s)
    ensures Arranged(Advance(s, id))
  {
    if s.pending == [] {
      ReapArranges(s);
    }
  }

  // ---- one advance in turn ----

  /** `t` has the queue of `s`, or what stands behind a head that waits for nothing, and the same requests in it wait. */
  ghost predicate SameWaits(s: Sequencer, t: Sequencer) {
    && (t.queue == s.queue || (s.queue != [] && t.queue == s.queue[1..] && !Awaits(s, s.queue[0])))
    && forall id :: id in t.queue ==> (Awaits(t, id) <==> Awaits(s, id))
  }

  lemma SameOneRefresh(s: Sequencer, t: Sequencer)
    requires SameWaits(s, t)
    ensures OneRefresh(t) <==> OneRefresh(s)
  {
    hide Awaits;
    if t.queue != s.queue {
      if OneRefresh(s) {
        forall i, j | 0 <= i < j < |t.queue| ensures !Awaits(t, t.queue[i]) || !Awaits(t, t.queue[j]) {
          assert !Awaits(s, s.queue[i + 1]) || !Awaits(s, s.queue[j + 1]);
        }
      }
      if OneRefresh(t) {
        forall i, j | 0 <= i < j < |s.queue| ensures !Awaits(s, s.queue[i]) || !Awaits(s, s.queue[j]) {
          assert i == 0 || !Awaits(t, t.queue[i - 1]) || !Awaits(t, t.queue[j - 1]);
        }
      }
    }
  }

  lemma ContiguousOn(s: Sequencer, t: Sequencer, i: nat, j: nat, k: nat)
    requires SameWaits(s, t) && Contiguous(s) && i < j < k < |t.queue|
    requires Awaits(t, t.queue[i]) && Awaits(t, t.queue[k])
    ensures Awaits(t, t.queue[j])
  {
    hide Awaits;
    if t.queue != s.queue {
      assert Awaits(s, s.queue[i + 1]) && Awaits(s, s.queue[k + 1]) && Awaits(s, s.queue[j + 1]);
    }
  }

  lemma ContiguousBefore(s: Sequencer, t: Sequencer, i: nat, j: nat, k: nat)
    requires SameWaits(s, t) && Contiguous(t) && i < j < k < |s.queue|
    requires Awaits(s, s.queue[i]) && Awaits(s, s.queue[k])
    ensures Awaits(s, s.queue[j])
  {
    hide Awaits;
    if t.queue != s.queue {
      assert Awaits(t, t.queue[i - 1]) && Awaits(t, t.queue[k - 1]) && Awaits(t, t.queue[j - 1]);
    }
  }

  lemma SameContiguous(s: Sequencer, t: Sequencer)
    requires SameWaits(s, t)
    ensures Contiguous(t) <==> Contiguous(s)
  {
    hide Awaits, SameWaits;
    if Contiguous(s) {
      forall i, j, k | 0 <= i < j < k < |t.queue| && Awaits(t, t.queue[i]) && Awaits(t, t.queue[k])
        ensures Awaits(t, t.queue[j])
      {
        ContiguousOn(s, t, i, j, k);
      }
    }
    if Contiguous(t) {
      forall i, j, k | 0 <= i < j < k < |s.queue| && Awaits(s, s.queue[i]) && Awaits(s, s.queue[k])
        ensures Awaits(s, s.queue[j])
      {
        ContiguousBefore(s, t, i, j, k);
      }
    }
  }

  lemma DeliverKeepsWaits(s: Sequencer)
    requires Ordered(s) && s.pending != []
    ensures SameWaits(s, Deliver(s)) && HeadIsNext(s)
  {
    hide Fires, InvokesIn, Chained, Invokes;
    match s.pending[0]
    case RefreshSlot(id) =>
      var ls := ListenersOf(s.listeners, id);
      FirstOfCalls(s.pending);
      FiresCalls(id, ls);
      SlotsInAdd(Fires(id, ls), s.pending[1..]);
      assert HeadOver(s) && id == s.queue[0];
      assert SlotsIn(s.pending) == [id] && SlotsIn(Deliver(s).pending) == [];
    case Fire(_, _) => FirstOfCalls(s.pending);
  }

  lemma ReapKeepsWaits(s: Sequencer)
    ensures SameWaits(s, Reap(s))
  {
    KeptAreQueued(s.refreshes, s.queue);
  }

  lemma ReplyKeepsWaits(r: Sequencer)
    requires r.pending == [] && r.queue != [] && r.queue[0] !in r.refreshes
    ensures SameWaits(r, ReplyArrived(r, r.queue[0]))
  {
    var ls := ListenersOf(r.listeners, r.queue[0]);
    FiresCalls(r.queue[0], ls);
    assert Fires(r.queue[0], ls) + r.pending == Fires(r.queue[0], ls);
  }

  /** The network answers the refresh at the head of the queue. */
  predicate Signals(s: Sequencer, id: nat) {
    s.pending == [] && s.queue != [] && id == s.queue[0] && id in s.refreshes && s.inFlight == {id}
  }

  lemma InFlightIsHead(s: Sequencer)
    requires Ordered(s) && s.pending == []
    ensures HeadIsNext(s) && (s.queue == [] ==> s.inFlight == {}) && (s.queue != [] ==> s.inFlight == {s.queue[0]})
  {
  }

  /** In turn, requests go on in turn, and those that wait go on waiting, until a refresh at the head is answered. */
  lemma TurnAdvances(s: Sequencer, id: nat)
    requires Ordered(s)
    ensures HeadIsNext(s)
    ensures Signals(s, id)
      || (Ordered(Advance(s, id))
          && (Contiguous(Advance(s, id)) <==> Contiguous(s)) && (OneRefresh(Advance(s, id)) <==> OneRefresh(s)))
  {
    hide Ordered, HeadIsNext, SameWaits, Contiguous, OneRefresh, Deliver, ReplyArrived;
    if s.pending != [] {
      DeliverKeeps(s);
      DeliverKeepsWaits(s);
      SameContiguous(s, Deliver(s));
      SameOneRefresh(s, Deliver(s));
    } else {
      InFlightIsHead(s);
      var r := Reap(s);
      ReapKeeps(s);
      ReapKeepsWaits(s);
      SameContiguous(s, r);
      SameOneRefresh(s, r);
      KeptAreQueued(s.refreshes, s.queue);
      if id in r.inFlight && !Signals(s, id) {
        ReplyKeeps(r, id);
        ReplyKeepsWaits(r);
        SameContiguous(r, ReplyArrived(r, id));
        SameOneRefresh(r, ReplyArrived(r, id));
      }
    }
  }

  // ---- the signal reaches every connected refresh ----

  /** No call to start a request stands behind a call that tells a refresh of its end. */
  predicate StartsFirst(pending: seq<Call>) {
    pending == [] || (if pending[0].RefreshSlot? then InvokesIn(pending) == [] else StartsFirst(pending[1..]))
  }

  lemma {:induction false} NoStartsFirst(pending: seq<Call>)
    requires InvokesIn(pending) == []
    ensures StartsFirst(pending)
  {
    if pending != [] {
      FirstOfCalls(pending);
      NoStartsFirst(pending[1..]);
    }
  }

  lemma {:induction false} FiresStartFirst(of: nat, ls: seq<Listener>, rest: seq<Call>)
    requires InvokesIn(rest) == []
    ensures StartsFirst(Fires(of, ls) + rest)
  {
    if ls == [] {
      assert Fires(of, ls) + rest == rest;
      NoStartsFirst(rest);
    } else {
      FiresStartFirst(of, ls[1..], rest);
      assert (Fires(of, ls) + rest)[1..] == Fires(of, ls[1..]) + rest;
    }
  }

  predicate AllEnded(s: Sequencer) { forall id :: id in s.inFlight ==> id in s.finished }

  predicate ToldAll(s: Sequencer) {
    s.queue == [] && s.invoked == s.finished && InvokesIn(s.pending) == [] && AllEnded(s)
  }

  predicate ToldDue(s: Sequencer) {
    s.queue != [] && s.invoked == s.finished && InvokesIn(s.pending) == [s.queue[0]] && AllEnded(s)
  }

  predicate ToldStarted(s: Sequencer) {
    && s.queue != [] && s.invoked == s.finished + [s.queue[0]] && InvokesIn(s.pending) == []
    && (forall id :: id in s.inFlight ==> id in s.finished || id == s.queue[0])
    && (SlotsIn(s.pending) == [] ==> s.queue[0] in s.inFlight)
  }

  /** The shared signal has been emitted, and the requests it tells are the first of the queue: none waits for another
      signal, and each is started before it is told. */
  ghost predicate Told(s: Sequencer) {
    && Recorded(s) && Chained(s.listeners, s.queue)
    && (forall id :: id in s.queue ==> !Awaits(s, id))
    && SlotsIn(s.pending) <= s.queue && StartsFirst(s.pending)
    && (ToldAll(s) || ToldDue(s) || ToldStarted(s))
  }

  /** The head leaves. */
  lemma ToldEnds(s: Sequencer)
    requires Recorded(s) && Chained(s.listeners, s.queue) && s.queue != []
    requires s.invoked == s.finished + [s.queue[0]] && InvokesIn(s.pending) == []
    requires forall id :: id in s.inFlight ==> id in s.finished || id == s.queue[0]
    requires SlotsIn(s.pending) <= s.queue[1..]
    requires forall id :: id in s.queue[1..] ==> !Awaits(s, id)
    ensures Told(Finish(s, s.queue[0]))
  {
    hide InvokesIn, SlotsIn, Fires, Invokes, StartsFirst, Chained, Recorded;
    var s' := Finish(s, s.queue[0]);
    FinishHeadRecords(s);
    var ls := ListenersOf(s.listeners, s.queue[0]);
    FiresCalls(s.queue[0], ls);
    CallsAdd(Fires(s.queue[0], ls), s.pending);
    FiresStartFirst(s.queue[0], ls, s.pending);
    HeadStartsNext(s);
    assert SlotsIn(s'.pending) == SlotsIn(s.pending);
  }

  lemma HeadStartsNext(s: Sequencer)
    requires Chained(s.listeners, s.queue) && s.queue != []
    ensures Invokes(ListenersOf(s.listeners, s.queue[0])) == Successor(s.queue, 0)
  {
    assert ChainedAt(s.listeners, s.queue, 0);
  }

  lemma ToldSlot(s: Sequencer, id: nat)
    requires Told(s) && s.pending != [] && s.pending[0] == RefreshSlot(id)
    ensures Told(Deliver(s)) && HeadIsNext(s)
  {
    hide InvokesIn, SlotsIn, Chained, Finish;
    FirstOfCalls(s.pending);
    var s1 := s.(pending := s.pending[1..]);
    assert SlotsIn(s.pending) == [id] + SlotsIn(s1.pending);
    assert SlotsIn(s.pending)[0] == id && SlotsIn(s1.pending) == SlotsIn(s.pending)[1..];
    assert id == s.queue[0] && ToldStarted(s) && InvokesIn(s1.pending) == [];
    forall x | x in s.queue[1..] ensures !Awaits(s1, x) {
      assert x in s.queue && x != id && !Awaits(s, x);
    }
    ToldEnds(s1);
  }

  lemma ToldInvoke(s: Sequencer, of: nat, id: nat)
    requires Told(s) && s.pending != [] && s.pending[0] == Fire(of, Invoke(id))
    ensures Told(Deliver(s))
  {
    hide InvokesIn, SlotsIn, Chained, Recorded;
    FirstOfCalls(s.pending);
    assert InvokesIn(s.pending)[0] == id;
    assert ToldDue(s) && InvokesIn(s.pending[1..]) == [];
    NoStartsFirst(s.pending[1..]);
    ToldKeepsRecord(s);
    assert ToldStarted(Deliver(s));
  }

  lemma ToldHandler(s: Sequencer)
    requires Told(s) && s.pending != [] && s.pending[0].Fire? && s.pending[0].listener.Handler?
    ensures Told(Deliver(s))
  {
    hide InvokesIn, SlotsIn, Chained, Recorded;
    FirstOfCalls(s.pending);
    ToldKeepsRecord(s);
  }

  lemma ToldKeepsRecord(s: Sequencer)
    requires Recorded(s) && s.pending != [] && s.pending[0].Fire?
    ensures Recorded(Deliver(s))
  {
  }

  /** An answer while nobody waits for the shared signal. */
  lemma ToldAnswer(s: Sequencer, id: nat)
    requires Told(s) && s.pending == []
    ensures Told(Advance(s, id)) && HeadIsNext(s)
  {
    hide Told, Finish;
    var r := Reap(s);
    ReapTold(s);
    ToldIsIdle(s);
    ToldIsIdle(r);
    NobodyConnected(s);
    if id in r.inFlight {
      if id in r.queue {
        ToldReply(r, id);
      } else {
        StrayReply(r, id);
      }
    }
  }

  lemma NobodyConnected(s: Sequencer)
    requires Told(s) && s.pending == []
    ensures Reap(s).refreshes == []
  {
    forall i | 0 <= i < |s.refreshes| ensures s.refreshes[i] !in s.queue {
      assert Awaits(s, s.refreshes[i]);
    }
    NoneKept(s.refreshes, s.queue);
  }

  lemma ToldIsIdle(s: Sequencer)
    requires Told(s) && s.pending == []
    ensures HeadIsNext(s)
  {
    EndedHaveLeft(s);
  }

  lemma ToldReply(r: Sequencer, id: nat)
    requires Told(r) && r.pending == [] && r.refreshes == [] && id in r.inFlight && id in r.queue
    ensures Told(ReplyArrived(r, id))
  {
    hide Chained, Finish;
    EndedHaveLeft(r);
    assert ToldStarted(r) && id == r.queue[0];
    ToldEnds(r.(inFlight := r.inFlight - {id}));
  }

  /** The answer to a refresh that was told of its end before. */
  lemma StrayReply(r: Sequencer, id: nat)
    requires Told(r) && r.pending == [] && r.refreshes == [] && id !in r.queue
    ensures Told(RefreshAnswered(r, id))
  {
    hide Chained;
    assert Slots(r.refreshes) + r.pending == [];
  }

  lemma ReapTold(s: Sequencer)
    requires Told(s)
    ensures Told(Reap(s))
  {
    KeptIsDistinct(s.refreshes, s.queue);
    var s' := Reap(s);
    forall i | 0 <= i < |s.queue| ensures ChainedAt(s'.listeners, s.queue, i) {
      assert ChainedAt(s.listeners, s.queue, i) && s.queue[i] in s.queue;
    }
  }

  lemma EndedHaveLeft(s: Sequencer)
    requires Recorded(s)
    ensures forall id :: id in s.finished ==> id !in s.queue
  {
    forall i, k | 0 <= i < |s.finished| && 0 <= k < |s.queue| ensures s.finished[i] != s.queue[k] {
      assert s.enqueued[i] == s.finished[i] && s.enqueued[|s.finished| + k] == s.queue[k];
    }
  }

  lemma FireIsNext(s: Sequencer)
    requires s.pending != [] && s.pending[0].Fire?
    ensures HeadIsNext(s)
  {
  }

  lemma ToldAdvances(s: Sequencer, id: nat)
    requires Told(s)
    ensures Told(Advance(s, id)) && HeadIsNext(s)
  {
    hide Told, HeadIsNext, Deliver;
    if s.pending == [] {
      ToldAnswer(s, id);
    } else {
      match s.pending[0]
      case RefreshSlot(x) => ToldSlot(s, x);
      case Fire(of, Invoke(x)) =>
        ToldInvoke(s, of, x);
        FireIsNext(s);
      case Fire(_, Handler(_)) =>
        ToldHandler(s);
        FireIsNext(s);
    }
  }

  // ---- the answer to the refresh at the head ----

  lemma {:induction false} NoneKept(ids: seq<nat>, queue: seq<nat>)
    requires forall i :: 0 <= i < |ids| ==> ids[i] !in queue
    ensures Kept(ids, queue) == []
  {
    if ids != [] {
      NoneKept(ids[1..], queue);
    }
  }

  /** Those kept are the first ones, if nobody kept stands behind one who is not. */
  lemma {:induction false} KeptArePrefix(ids: seq<nat>, queue: seq<nat>)
    requires forall i, k :: 0 <= i < k < |ids| && ids[k] in queue ==> ids[i] in queue
    ensures Kept(ids, queue) <= ids
  {
    if ids != [] {
      if ids[0] in queue {
        forall i, k | 0 <= i < k < |ids[1..]| && ids[1..][k] in queue ensures ids[1..][i] in queue {
          assert ids[i + 1] in queue && ids[k + 1] in queue;
        }
        KeptArePrefix(ids[1..], queue);
      } else {
        NoneKept(ids, queue);
      }
    }
  }

  lemma PrefixIsClosed(ids: seq<nat>, queue: seq<nat>, i: nat, k: nat)
    requires Distinct(ids) && Kept(ids, queue) <= ids && i < k < |ids| && ids[k] in queue
    ensures ids[i] in queue
  {
    KeptAreQueued(ids, queue);
    var kept := Kept(ids, queue);
    assert ids[k] in kept;
    var m :| 0 <= m < |kept| && kept[m] == ids[k];
    assert ids[m] == ids[k] && m == k && kept[i] == ids[i];
    assert ids[i] in kept;
  }

  /** The connected refreshes are those of the queue, in its order. */
  lemma ConnectedAsQueued(r: Sequencer)
    requires Recorded(r) && Arranged(r) && forall id :: id in r.refreshes ==> id in r.queue
    ensures r.refreshes == Kept(r.queue, r.refreshes)
  {
    EndedHaveLeft(r);
    KeptAdds(r.finished, r.queue, r.refreshes);
    NoneKept(r.finished, r.refreshes);
  }

  /** The signal tells the first requests of the queue if and only if the waiting ones stand next to each other. */
  lemma SignalTellsPrefixIff(r: Sequencer)
    requires Recorded(r) && Arranged(r) && forall id :: id in r.refreshes ==> id in r.queue
    requires r.pending == [] && r.queue != [] && r.queue[0] in r.refreshes
    ensures r.refreshes <= r.queue <==> Contiguous(r)
  {
    hide Kept, Arranged;
    ConnectedAsQueued(r);
    assert forall id :: Awaits(r, id) <==> id in r.refreshes;
    if Contiguous(r) {
      forall i, k | 0 <= i < k < |r.queue| && r.queue[k] in r.refreshes ensures r.queue[i] in r.refreshes {
        assert i == 0 || (Awaits(r, r.queue[0]) && Awaits(r, r.queue[k]));
      }
      KeptArePrefix(r.queue, r.refreshes);
    }
    if r.refreshes <= r.queue {
      forall i, j, k | 0 <= i < j < k < |r.queue| && Awaits(r, r.queue[i]) && Awaits(r, r.queue[k])
        ensures Awaits(r, r.queue[j])
      {
        PrefixIsClosed(r.queue, r.refreshes, j, k);
      }
    }
  }

  /** Requests that do not stand first in the queue are about to be told of their end. */
  ghost predicate Misled(s: Sequencer) {
    s.enqueued == s.finished + s.queue && !(SlotsIn(s.pending) <= s.queue)
  }

  /** With the waiting refreshes next to each other the signal tells only the first ones of the queue, else it misleads. */
  lemma SignalLeads(s: Sequencer, id: nat)
    requires Ordered(s) && Arranged(s) && Signals(s, id)
    ensures if Contiguous(s) then Told(Advance(s, id)) else Misled(Advance(s, id))
  {
    hide Arranged, SameWaits, Chained, Contiguous, InvokesIn, Slots;
    var r := Reap(s);
    ReapKeeps(s);
    ReapArranges(s);
    ReapKeepsWaits(s);
    SameContiguous(s, r);
    KeptAreQueued(s.refreshes, s.queue);
    SignalTellsPrefixIff(r);
    var s' := RefreshAnswered(r, id);
    SlotsCalls(r.refreshes);
    assert s'.pending == Slots(r.refreshes);
    NoStartsFirst(s'.pending);
    assert s'.inFlight == {} && r.refreshes != [];
  }

  // ---- the queue drains exactly when the waiting refreshes stand next to each other ----

  /** On the way to be drained. */
  ghost predicate OnCourse(s: Sequencer) { (Ordered(s) && Arranged(s) && Contiguous(s)) || Told(s) }

  lemma CourseAdvances(s: Sequencer, id: nat)
    requires OnCourse(s)
    ensures OnCourse(Advance(s, id)) && HeadIsNext(s)
  {
    hide Ordered, Arranged, Contiguous, Told, HeadIsNext, Advance;
    if Told(s) {
      ToldAdvances(s, id);
    } else {
      TurnAdvances(s, id);
      AdvanceArranges(s, id);
      if Signals(s, id) {
        SignalLeads(s, id);
      }
    }
  }

  lemma QuietStaysQuiet(s: Sequencer, id: nat)
    requires Quiet(s)
    ensures Quiet(Advance(s, id))
  {
  }

  lemma QuietIsDrained(s: Sequencer)
    requires OnCourse(s) && Quiet(s)
    ensures Drained(s)
  {
  }

  lemma {:induction false} CourseRuns(s: Sequencer, answers: seq<nat>)
    requires OnCourse(s) && Answering(s, answers)
    ensures var s' := AdvanceBy(s, answers);
      OnCourse(s') && (Quiet(s') || Work(s') + |answers| <= Work(s))
    decreases |answers|
  {
    hide OnCourse, Quiet, Work, Advance, HeadIsNext, Answers;
    if answers != [] {
      var before, id := answers[..|answers| - 1], answers[|answers| - 1];
      CourseRuns(s, before);
      var s1 := AdvanceBy(s, before);
      CourseAdvances(s1, id);
      if Quiet(s1) {
        QuietStaysQuiet(s1, id);
      } else {
        AdvanceWorks(s1, id);
      }
    }
  }

  /** A request was told of its end out of order. */
  ghost predicate Spoilt(s: Sequencer) { !(s.finished <= s.enqueued) }

  /** On the way not to be drained, ever. */
  ghost predicate OffCourse(s: Sequencer) { (Ordered(s) && Arranged(s) && !Contiguous(s)) || Misled(s) || Spoilt(s) }

  lemma MisledAdvances(s: Sequencer)
    requires Misled(s)
    ensures s.pending != [] && (Misled(Deliver(s)) || Spoilt(Deliver(s)))
  {
    hide Fires, InvokesIn, Finish;
    MisledHasCalls(s);
    FirstOfCalls(s.pending);
    match s.pending[0]
    case Fire(_, _) => FireMisleads(s);
    case RefreshSlot(id) => SlotMisleads(s.(pending := s.pending[1..]), id);
  }

  lemma MisledHasCalls(s: Sequencer)
    requires Misled(s)
    ensures s.pending != []
  {
  }

  lemma FireMisleads(s: Sequencer)
    requires Misled(s) && s.pending != [] && SlotsIn(s.pending) == SlotsIn(s.pending[1..]) && s.pending[0].Fire?
    ensures Misled(Deliver(s))
  {
  }

  lemma SlotMisleads(s: Sequencer, id: nat)
    requires s.enqueued == s.finished + s.queue && !([id] + SlotsIn(s.pending) <= s.queue)
    ensures Misled(Finish(s, id)) || Spoilt(Finish(s, id))
  {
    hide Fires, InvokesIn, SlotsIn;
    var s', ls := Finish(s, id), ListenersOf(s.listeners, id);
    FiresCalls(id, ls);
    SlotsInAdd(Fires(id, ls), s.pending);
    var told := SlotsIn(s.pending);
    assert SlotsIn(s'.pending) == told;
    if s.queue != [] && id == s.queue[0] {
      assert s.queue == [id] + s.queue[1..] && s'.finished + s'.queue == s.enqueued;
      assert told <= s'.queue ==> [id] + told <= s.queue;
    } else {
      assert s'.finished[|s.finished|] == id;
      assert s.queue != [] ==> s.enqueued[|s.finished|] == s.queue[0];
    }
  }

  lemma SpoiltAdvances(s: Sequencer, id: nat)
    requires Spoilt(s)
    ensures Spoilt(Advance(s, id))
  {
    assert s.finished <= Advance(s, id).finished;
  }

  lemma OffCourseAdvances(s: Sequencer, id: nat)
    requires OffCourse(s)
    ensures OffCourse(Advance(s, id))
  {
    hide Ordered, Arranged, Contiguous, Misled, Spoilt, Deliver;
    if Spoilt(s) {
      SpoiltAdvances(s, id);
    } else if Misled(s) {
      MisledAdvances(s);
    } else {
      TurnAdvances(s, id);
      AdvanceArranges(s, id);
      if Signals(s, id) {
        SignalLeads(s, id);
      }
    }
  }

  lemma {:induction false} OffCourseRuns(s: Sequencer, answers: seq<nat>)
    requires OffCourse(s)
    ensures OffCourse(AdvanceBy(s, answers))
    decreases |answers|
  {
    hide OffCourse, Advance;
    if answers != [] {
      OffCourseRuns(s, answers[..|answers| - 1]);
      OffCourseAdvances(AdvanceBy(s, answers[..|answers| - 1]), answers[|answers| - 1]);
    }
  }

  lemma OffCourseIsNotDrained(s: Sequencer)
    requires OffCourse(s)
    ensures !Drained(s)
  {
  }

  /** After any run, when the network answers in any order and nothing new is queued, the queue drains, with everything
      started and ended once, in order, if and only if the refreshes in it that still wait stand next to each other. */
  lemma DrainsIff(events: seq<Event>, answers: seq<nat>)
    requires Possible(EMPTY, events)
    requires Answering(Run(EMPTY, events), answers) && |answers| > Work(Run(EMPTY, events))
    ensures Drained(AdvanceBy(Run(EMPTY, events), answers)) <==> Contiguous(Run(EMPTY, events))
  {
    hide Ordered, Arranged, Contiguous, Drained, Work, Quiet, Run;
    var s := Run(EMPTY, events);
    RunArranges(events);
    if Contiguous(s) {
      CourseRuns(s, answers);
      QuietIsDrained(AdvanceBy(s, answers));
    } else {
      OffCourseRuns(s, answers);
      OffCourseIsNotDrained(AdvanceBy(s, answers));
    }
  }

  const SPLIT_EVENTS := [RefreshQueued(1), RequestQueued(2), RefreshQueued(3)]

  const SPLIT := Sequencer([1, 2, 3], map[1 := [Invoke(2)], 2 := [Invoke(3)]], [1, 3], [], {1}, [1, 2, 3], [1], [], [])

  const SPLIT_SECOND := Sequencer([1, 2], map[1 := [Invoke(2)]], [1], [], {1}, [1, 2], [1], [], [])

  lemma SplitSecond()
    ensures Queue(OVERLAP_FIRST, 2) == SPLIT_SECOND
  {
    var s2 := Queue(OVERLAP_FIRST, 2);
    assert s2.queue == [1, 2] && s2.enqueued == [1, 2];
    assert s2.listeners[1] == [Invoke(2)] && s2.listeners == map[1 := [Invoke(2)]];
  }

  lemma SplitThird()
    ensures Refresh(SPLIT_SECOND, 3) == SPLIT
  {
    var s3 := Refresh(SPLIT_SECOND, 3);
    assert s3.queue == [1, 2, 3] && s3.enqueued == [1, 2, 3] && s3.refreshes == [1, 3];
    assert s3.listeners[2] == [Invoke(3)] && s3.listeners == map[1 := [Invoke(2)], 2 := [Invoke(3)]];
  }

  lemma ThreeSteps(s: Sequencer, a: Event, b: Event, c: Event)
    ensures Run(s, [a, b, c]) == Step(Step(Step(s, a), b), c)
    ensures Enabled(s, a) && Enabled(Step(s, a), b) && Enabled(Step(Step(s, a), b), c) ==> Possible(s, [a, b, c])
  {
    hide Enabled, Step, Run, Possible;
    RunOne(s, a);
    RunOne(Step(s, a), b);
    RunOne(Step(Step(s, a), b), c);
    RunThenRun(s, [a], [b]);
    RunThenRun(s, [a] + [b], [c]);
    assert [a] + [b] + [c] == [a, b, c];
  }

  lemma SplitQueues()
    ensures Run(EMPTY, SPLIT_EVENTS) == SPLIT && Possible(EMPTY, SPLIT_EVENTS)
  {
    hide Refresh, Queue, Run, Possible;
    OverlapQueues();
    SplitSecond();
    SplitThird();
    ThreeSteps(EMPTY, RefreshQueued(1), RequestQueued(2), RefreshQueued(3));
  }

  /** A request between two refreshes: however the network answers, the queue never drains. */
  lemma SplitNeverDrains(answers: seq<nat>)
    ensures Possible(EMPTY, SPLIT_EVENTS) && !Drained(AdvanceBy(Run(EMPTY, SPLIT_EVENTS), answers))
  {
    hide Ordered, Arranged, Drained;
    var s := SPLIT;
    SplitQueues();
    RunArranges(SPLIT_EVENTS);
    assert SlotsIn(s.pending) == [] && s.queue[0] == 1 && s.queue[1] == 2 && s.queue[2] == 3;
    assert s.refreshes[0] == 1 && s.refreshes[1] == 3 && Awaits(s, 1) && !Awaits(s, 2) && Awaits(s, 3);
    OffCourseRuns(s, answers);
    OffCourseIsNotDrained(AdvanceBy(s, answers));
  }

  // ---- none ends ahead of its own answer exactly when one refresh waits at most ----

  /** Requests are sequential, and none has ended whose operation is still in flight. */
  ghost predicate Clean(s: Sequencer) { Sequential(s) && forall id :: id in s.inFlight ==> id in s.queue }

  lemma OrderedIsClean(s: Sequencer)
    requires Ordered(s)
    ensures Clean(s)
  {
    OrderedIsSequential(s);
  }

  lemma HeadRefreshIsAlone(r: Sequencer)
    requires OneRefresh(r) && r.pending == [] && r.queue != [] && r.queue[0] in r.refreshes
    requires Distinct(r.refreshes) && forall id :: id in r.refreshes ==> id in r.queue
    ensures r.refreshes == [r.queue[0]]
  {
    forall i | 0 <= i < |r.refreshes| ensures r.refreshes[i] == r.queue[0] {
      assert r.refreshes[i] in r.queue;
      var k :| 0 <= k < |r.queue| && r.queue[k] == r.refreshes[i];
      assert k == 0 || !Awaits(r, r.queue[0]) || !Awaits(r, r.queue[k]);
    }
    FirstTwoDiffer(r.refreshes);
  }

  lemma LoneSignal(r: Sequencer, id: nat)
    requires Ordered(r) && r.pending == [] && r.refreshes == [id] && r.inFlight == {id}
    ensures Ordered(RefreshAnswered(r, id)) && OneRefresh(RefreshAnswered(r, id))
  {
    hide Ordered;
    assert r.refreshes[0] == id && SlotsIn(r.pending) == [];
    assert RefreshAnswered(r, id).inFlight == RefreshFinished(r).inFlight;
    SignalKeeps(r);
    SlotsCalls(r.refreshes);
    assert Slots(r.refreshes) + r.pending == Slots(r.refreshes);
  }

  lemma OneRefreshAdvances(s: Sequencer, id: nat)
    requires Ordered(s) && OneRefresh(s)
    ensures Ordered(Advance(s, id)) && OneRefresh(Advance(s, id))
  {
    hide OneRefresh, SameWaits, Chained;
    TurnAdvances(s, id);
    if Signals(s, id) {
      var r := Reap(s);
      ReapKeeps(s);
      ReapKeepsWaits(s);
      SameOneRefresh(s, r);
      KeptAreQueued(s.refreshes, s.queue);
      HeadRefreshIsAlone(r);
      LoneSignal(r, id);
    }
  }

  lemma {:induction false} OneRefreshRuns(s: Sequencer, answers: seq<nat>)
    requires Ordered(s) && OneRefresh(s)
    ensures Ordered(AdvanceBy(s, answers)) && OneRefresh(AdvanceBy(s, answers))
    decreases |answers|
  {
    hide Ordered, OneRefresh, Advance;
    if answers != [] {
      OneRefreshRuns(s, answers[..|answers| - 1]);
      OneRefreshAdvances(AdvanceBy(s, answers[..|answers| - 1]), answers[|answers| - 1]);
    }
  }

  /** A request is about to be told of its end that has not started, or whose operation is in flight. */
  predicate Doomed(s: Sequencer, id: nat) {
    id in SlotsIn(s.pending) && Distinct(s.queue) && (id in s.invoked ==> id in s.inFlight)
  }

  /** A clean state must become unclean. */
  ghost predicate Doom(s: Sequencer) { (Ordered(s) && !OneRefresh(s)) || exists id :: Doomed(s, id) }

  lemma NotYetInvoked(r: Sequencer, id: nat)
    requires Recorded(r) && r.queue != [] && r.invoked == r.finished + [r.queue[0]]
    requires id in r.queue && id != r.queue[0]
    ensures id !in r.invoked
  {
    EndedHaveLeft(r);
  }

  /** The answer to the head tells another refresh, which has not started, of its end. */
  lemma SignalDooms(s: Sequencer, id: nat)
    requires Ordered(s) && Signals(s, id) && !OneRefresh(s)
    ensures Doom(Advance(s, id)) && !Quiet(s)
  {
    hide Chained, Kept, Slots;
    var i, j :| 0 <= i < j < |s.queue| && Awaits(s, s.queue[i]) && Awaits(s, s.queue[j]);
    var second := s.queue[j];
    KeptAreQueued(s.refreshes, s.queue);
    NotYetInvoked(s, second);
    ToldIsDoomed(Reap(s), id, second);
  }

  lemma ToldIsDoomed(r: Sequencer, id: nat, second: nat)
    requires r.pending == [] && Distinct(r.queue) && second in r.refreshes && second !in r.invoked
    ensures Doomed(RefreshAnswered(r, id), second)
  {
    SlotsCalls(r.refreshes);
    assert Slots(r.refreshes) + r.pending == Slots(r.refreshes);
  }

  /** In clean states only the head of the queue is told of its end, and never the doomed request. */
  lemma DoomedAdvances(s: Sequencer, id: nat)
    requires Doomed(s, id) && Clean(s) && Clean(Deliver(s))
    ensures s.pending != [] && HeadIsNext(s) && Doomed(Deliver(s), id)
  {
    hide Fires, InvokesIn;
    FirstOfCalls(s.pending);
    match s.pending[0]
    case Fire(_, _) =>
    case RefreshSlot(x) =>
      var s', ls := Deliver(s), ListenersOf(s.listeners, x);
      FiresCalls(x, ls);
      SlotsInAdd(Fires(x, ls), s.pending[1..]);
      RemoveFromDistinct(s.queue, x);
      assert s'.finished <= s.enqueued;
      assert s'.finished[|s.finished|] == x == s.enqueued[|s.finished|];
      assert s'.invoked[|s.finished|] == x;
  }

  lemma DoomAdvances(s: Sequencer, id: nat)
    requires Doom(s) && Clean(s) && Clean(Advance(s, id))
    ensures Doom(Advance(s, id)) && HeadIsNext(s) && !Quiet(s)
  {
    hide Ordered, Clean, Doomed, HeadIsNext, Deliver, OneRefresh;
    if Ordered(s) && !OneRefresh(s) {
      TurnAdvances(s, id);
      WaitingIsNotQuiet(s);
      if Signals(s, id) {
        SignalDooms(s, id);
      }
    } else {
      var x :| Doomed(s, x);
      DoomedHasCalls(s, x);
      DoomedAdvances(s, x);
    }
  }

  lemma DoomedHasCalls(s: Sequencer, id: nat)
    requires Doomed(s, id)
    ensures s.pending != []
  {
  }

  lemma WaitingIsNotQuiet(s: Sequencer)
    requires Ordered(s) && !OneRefresh(s)
    ensures !Quiet(s)
  {
  }

  lemma {:induction false} DoomRuns(s: Sequencer, answers: seq<nat>)
    requires Doom(s) && Answering(s, answers)
    requires forall n: nat :: n <= |answers| ==> Clean(AdvanceBy(s, answers[..n]))
    ensures Doom(AdvanceBy(s, answers)) && Work(AdvanceBy(s, answers)) + |answers| <= Work(s)
    decreases |answers|
  {
    hide Doom, Clean, Work, Advance, HeadIsNext, Answers, Quiet;
    if answers != [] {
      var before, id := answers[..|answers| - 1], answers[|answers| - 1];
      forall n: nat | n <= |before| ensures Clean(AdvanceBy(s, before[..n])) {
        assert before[..n] == answers[..n];
      }
      DoomRuns(s, before);
      assert answers[..|answers|] == answers && Clean(AdvanceBy(s, answers[..|before|]));
      DoomAdvances(AdvanceBy(s, before), id);
      AdvanceWorks(AdvanceBy(s, before), id);
    }
  }

  /** After any run, when the network answers in any order and nothing new is queued, requests stay sequential and
      none ends while its operation is in flight, if and only if at most one queued refresh still waits. */
  lemma StaysCleanIff(events: seq<Event>, answers: seq<nat>)
    requires Possible(EMPTY, events)
    requires Answering(Run(EMPTY, events), answers) && |answers| > Work(Run(EMPTY, events))
    ensures OneRefresh(Run(EMPTY, events)) <==>
      forall n: nat :: n <= |answers| ==> Clean(AdvanceBy(Run(EMPTY, events), answers[..n]))
  {
    hide Ordered, Arranged, OneRefresh, Clean, Work, Run;
    var s := Run(EMPTY, events);
    RunArranges(events);
    if OneRefresh(s) {
      forall n: nat | n <= |answers| ensures Clean(AdvanceBy(s, answers[..n])) {
        OneRefreshRuns(s, answers[..n]);
        OrderedIsClean(AdvanceBy(s, answers[..n]));
      }
    } else if forall n: nat :: n <= |answers| ==> Clean(AdvanceBy(s, answers[..n])) {
      DoomRuns(s, answers);
      assert false;
    }
  }

  /** The network can always go on answering. */
  lemma {:induction false} AnswersExist(s: Sequencer, n: nat) returns (answers: seq<nat>)
    ensures |answers| == n && Answering(s, answers)
    decreases n
  {
    if n == 0 {
      answers := [];
    } else {
      var before := AnswersExist(s, n - 1);
      var s1 := AdvanceBy(s, before);
      var id := 0;
      if s1.inFlight != {} {
        id :| id in s1.inFlight;
      }
      answers := before + [id];
    }
  }
}
