/** Whom the end of a request calls back: the handlers connected to it (src/request-invoker.cpp:159-190). */
module RequestHandlers {
  import opened RequestSequencing

  /** The handlers that a run connects to a request, in order. */
  function Connected(events: seq<Event>, id: nat): seq<nat>
    decreases |events|
  {
    if events == [] then []
    else Connected(events[..|events| - 1], id) + Connects(events[|events| - 1], id)
  }

  function Connects(e: Event, id: nat): seq<nat> {
    if e.HandlerConnected? && e.id == id then [e.name] else []
  }

  /** The handlers that the end of a request has called, in order. */
  function CalledFor(called: seq<HandlerCall>, id: nat): seq<nat>
    decreases |called|
  {
    if called == [] then []
    else
      var last := called[|called| - 1];
      CalledFor(called[..|called| - 1], id) + if last.of == id then [last.name] else []
  }

  /** Those it still has to call. */
  function StillDue(pending: seq<Call>, id: nat): seq<nat> {
    if pending == [] then []
    else (if pending[0].Fire? && pending[0].of == id && pending[0].listener.Handler? then [pending[0].listener.name] else [])
         + StillDue(pending[1..], id)
  }

  function HandlersIn(ls: seq<Listener>): seq<nat> {
    if ls == [] then [] else (if ls[0].Handler? then [ls[0].name] else []) + HandlersIn(ls[1..])
  }

  /** Of a request that has ended, the handlers called and those about to be called are `names`; one that has not ended
      has called nobody, and `names` are connected to it. */
  ghost predicate Faithful(s: Sequencer, id: nat, names: seq<nat>) {
    if id in s.finished then CalledFor(s.called, id) + StillDue(s.pending, id) == names
    else
      && CalledFor(s.called, id) == [] && StillDue(s.pending, id) == []
      && HandlersIn(ListenersOf(s.listeners, id)) == names
  }

  lemma {:induction false} HandlersAdd(a: seq<Listener>, b: seq<Listener>)
    ensures HandlersIn(a + b) == HandlersIn(a) + HandlersIn(b)
  {
    if a == [] {
      assert a + b == b;
    } else {
      assert (a + b)[0] == a[0] && (a + b)[1..] == a[1..] + b;
      HandlersAdd(a[1..], b);
    }
  }

  lemma {:induction false} DueAdds(a: seq<Call>, b: seq<Call>, id: nat)
    ensures StillDue(a + b, id) == StillDue(a, id) + StillDue(b, id)
  {
    if a == [] {
      assert a + b == b;
    } else {
      assert (a + b)[0] == a[0] && (a + b)[1..] == a[1..] + b;
      DueAdds(a[1..], b, id);
    }
  }

  lemma {:induction false} FiresAreDue(of: nat, ls: seq<Listener>, id: nat)
    ensures StillDue(Fires(of, ls), id) == if of == id then HandlersIn(ls) else []
  {
    if ls != [] {
      FiresAreDue(of, ls[1..], id);
    }
  }

  lemma {:induction false} SlotsAreNotDue(ids: seq<nat>, id: nat)
    ensures StillDue(Slots(ids), id) == []
  {
    if ids != [] {
      SlotsAreNotDue(ids[1..], id);
    }
  }

  lemma EndedHaveLeft(s: Sequencer, id: nat)
    requires Recorded(s) && id in s.finished
    ensures id !in s.queue
  {
    var i :| 0 <= i < |s.finished| && s.finished[i] == id;
    forall k | 0 <= k < |s.queue| ensures s.queue[k] != id {
      assert s.enqueued[i] == id && s.enqueued[|s.finished| + k] == s.queue[k];
    }
  }

  lemma ConnectFaithful(s: Sequencer, to: nat, l: Listener, id: nat, names: seq<nat>)
    requires Recorded(s) && to in s.queue && Faithful(s, id, names)
    ensures Faithful(Connect(s, to, l), id, names + if to == id && l.Handler? then [l.name] else [])
  {
    HandlersAdd(ListenersOf(s.listeners, to), [l]);
    if to in s.finished {
      EndedHaveLeft(s, to);
    }
  }

  lemma QueueFaithful(s: Sequencer, next: nat, id: nat, names: seq<nat>)
    requires Recorded(s) && Faithful(s, id, names)
    ensures Faithful(Queue(s, next), id, names)
  {
    hide CalledFor, StillDue;
    if s.queue != [] {
      var last := s.queue[|s.queue| - 1];
      assert last in s.queue;
      ConnectFaithful(s, last, Invoke(next), id, names);
    }
  }

  /** The end of a request is about to call those connected to it. */
  lemma FinishFaithful(s: Sequencer, of: nat, id: nat, names: seq<nat>)
    requires Recorded(s) && of in s.queue && Faithful(s, id, names)
    ensures Faithful(Finish(s, of), id, names)
  {
    hide CalledFor, StillDue, Fires, HandlersIn, Recorded;
    var ls := ListenersOf(s.listeners, of);
    FiresAreDue(of, ls, id);
    DueAdds(Fires(of, ls), s.pending, id);
    if of in s.finished {
      EndedHaveLeft(s, of);
    }
  }

  lemma SignalFaithful(s: Sequencer, t: Sequencer, id: nat, names: seq<nat>)
    requires Faithful(s, id, names)
    requires t == s.(inFlight := t.inFlight, pending := Slots(s.refreshes) + s.pending)
    ensures Faithful(t, id, names)
  {
    SlotsAreNotDue(s.refreshes, id);
    DueAdds(Slots(s.refreshes), s.pending, id);
  }

  lemma DeliverFaithful(s: Sequencer, id: nat, names: seq<nat>)
    requires Ordered(s) && s.pending != [] && Faithful(s, id, names)
    ensures Faithful(Deliver(s), id, names)
  {
    hide Ordered, Fires;
    match s.pending[0]
    case RefreshSlot(of) =>
      SlotIsHead(s);
      FinishFaithful(s.(pending := s.pending[1..]), of, id, names);
    case Fire(of, Invoke(_)) =>
    case Fire(of, Handler(name)) =>
      var called := Deliver(s).called;
      assert called[..|called| - 1] == s.called;
      Moved(CalledFor(s.called, id), name, StillDue(s.pending[1..], id));
  }

  lemma Moved(a: seq<nat>, x: nat, b: seq<nat>)
    ensures (a + [x]) + b == a + ([x] + b)
  {
  }

  lemma SlotIsHead(s: Sequencer)
    requires Ordered(s) && s.pending != [] && s.pending[0].RefreshSlot?
    ensures s.pending[0].id in s.queue && Recorded(s)
  {
  }

  lemma ReapFaithful(s: Sequencer, id: nat, names: seq<nat>)
    requires Recorded(s) && Faithful(s, id, names)
    ensures Faithful(Reap(s), id, names)
  {
    hide CalledFor, StillDue;
    if id !in s.finished && id !in s.queue {
      assert id !in s.enqueued;
    }
  }

  lemma StepFaithful(s: Sequencer, e: Event, id: nat, names: seq<nat>)
    requires Ordered(s) && Enabled(s, e) && Faithful(s, id, names)
    ensures Faithful(Step(s, e), id, names + Connects(e, id))
  {
    hide Faithful, Deliver, Finish, Reap, Connect, Chained;
    assert names + [] == names;
    match e
    case RequestQueued(next) => QueueFaithful(s, next, id, names);
    case RefreshQueued(next) => RefreshFaithful(s, next, id, names);
    case HandlerConnected(to, name) => ConnectFaithful(s, to, Handler(name), id, names);
    case Replied(of) => ReplyFaithful(s, of, id, names);
    case StrayReplied(of) => SignalFaithful(s, RefreshAnswered(s, of), id, names);
    case RefreshSignalled => SignalFaithful(s, RefreshFinished(s), id, names);
    case CallMade =>
      if s.pending != [] {
        DeliverFaithful(s, id, names);
      } else {
        NoCall(s);
      }
    case LoopTurned => ReapFaithful(s, id, names);
  }

  lemma NoCall(s: Sequencer)
    requires s.pending == []
    ensures Deliver(s) == s
  {
  }

  lemma RefreshFaithful(s: Sequencer, next: nat, id: nat, names: seq<nat>)
    requires Recorded(s) && next !in s.enqueued && Faithful(s, id, names)
    ensures Faithful(Refresh(s, next), id, names)
  {
    QueueFaithful(s, next, id, names);
    assert Refresh(s, next) == Queue(s, next).(refreshes := s.refreshes + [next]);
  }

  lemma ReplyFaithful(s: Sequencer, of: nat, id: nat, names: seq<nat>)
    requires Recorded(s) && of in s.queue && Faithful(s, id, names)
    ensures Faithful(ReplyArrived(s, of), id, names)
  {
    FinishFaithful(s.(inFlight := s.inFlight - {of}), of, id, names);
  }

  lemma {:induction false} RunFaithful(events: seq<Event>, id: nat)
    requires Possible(EMPTY, events)
    ensures Faithful(Run(EMPTY, events), id, Connected(events, id))
    decreases |events|
  {
    hide Faithful, Ordered, Step, Enabled;
    if events == [] {
      NothingCalled(id);
    } else {
      var before := events[..|events| - 1];
      RunFaithful(before, id);
      EmptyIsOrdered();
      RunKeeps(EMPTY, before);
      StepFaithful(Run(EMPTY, before), events[|events| - 1], id, Connected(before, id));
    }
  }

  lemma EmptyIsOrdered()
    ensures Ordered(EMPTY)
  {
  }

  lemma NothingCalled(id: nat)
    ensures Faithful(EMPTY, id, [])
  {
  }

  /** In every run, what the end of a request has called, followed by what it is still about to call, are the handlers
      that were connected to it, once each and in the order of their connection; a request that has not ended has called
      nobody. */
  lemma HandlersAreCalled(events: seq<Event>, id: nat)
    requires Possible(EMPTY, events)
    ensures var s := Run(EMPTY, events);
      if id in s.finished then CalledFor(s.called, id) + StillDue(s.pending, id) == Connected(events, id)
      else CalledFor(s.called, id) == [] && StillDue(s.pending, id) == []
  {
    hide Run, Possible;
    RunFaithful(events, id);
  }
}
