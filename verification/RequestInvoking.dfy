/** The sequencer object and its handlers, proved to do what `RequestSequencing` says (src/request-invoker.cpp). */
module RequestInvoking {
  import opened RequestSequencing

  /** The end of request `of` is about to call each listener, in order, ahead of what was due before. */
  ghost predicate CallsAhead(pending: seq<Call>, of: nat, listeners: seq<Listener>, before: seq<Call>) {
    && |pending| == |listeners| + |before|
    && (forall i :: 0 <= i < |listeners| ==> pending[i] == Fire(of, listeners[i]))
    && pending[|listeners|..] == before
  }

  class RequestSequencer {
    var requestQueue: seq<nat>
    var connections: map<nat, seq<Listener>>
    var refreshConnections: seq<nat>
    ghost var pending: seq<Call>
    ghost var inFlight: set<nat>
    ghost var enqueued: seq<nat>
    ghost var invoked: seq<nat>
    ghost var finished: seq<nat>
    ghost var called: seq<HandlerCall>

    constructor ()
      ensures Snapshot() == EMPTY && Ordered(Snapshot())
    {
      requestQueue, connections, refreshConnections := [], map[], [];
      pending, inFlight, enqueued, invoked, finished, called := [], {}, [], [], [], [];
    }

    ghost function Snapshot(): Sequencer
      reads this
    {
      Sequencer(requestQueue, connections, refreshConnections, pending, inFlight, enqueued, invoked, finished, called)
    }

    /** `connect` to a request's `finished` signal. */
    method Connect(id: nat, l: Listener)
      modifies this`connections
      ensures Snapshot() == RequestSequencing.Connect(old(Snapshot()), id, l)
    {
      var others := if id in connections then connections[id] else [];
      connections := connections[id := others + [l]];
    }

    /** The request is handed to the network. */
    ghost method Invoke(id: nat)
      modifies this`inFlight, this`invoked
      ensures Snapshot() == Start(old(Snapshot()), id)
    {
      inFlight := inFlight + {id};
      invoked := invoked + [id];
    }

    /** Start at once, or with the end of the last request in the queue. */
    method Queue(id: nat)
      modifies this
      ensures Snapshot() == RequestSequencing.Queue(old(Snapshot()), id)
      ensures old(Ordered(Snapshot())) && id !in old(enqueued) ==> Ordered(Snapshot())
    {
      if Ordered(Snapshot()) && id !in enqueued {
        QueueKeeps(Snapshot(), id);
      }
      enqueued := enqueued + [id];
      if requestQueue == [] {
        requestQueue := requestQueue + [id];
        Invoke(id);
      } else {
        var last := requestQueue[|requestQueue| - 1];
        Connect(last, Listener.Invoke(id));
        requestQueue := requestQueue + [id];
      }
    }

    method Refresh(id: nat)
      requires Ordered(Snapshot()) && id !in enqueued
      modifies this
      ensures Snapshot() == RequestSequencing.Refresh(old(Snapshot()), id)
      ensures Ordered(Snapshot())
    {
      RefreshKeeps(Snapshot(), id);
      refreshConnections := refreshConnections + [id];
      Queue(id);
    }

    /** Leave the queue, then emit `finished`. */
    method Finish(id: nat)
      modifies this`requestQueue, this`pending, this`finished
      ensures Snapshot() == RequestSequencing.Finish(old(Snapshot()), id)
    {
      requestQueue := RemoveOne(requestQueue, id);
      finished := finished + [id];
      pending := Fires(id, ListenersOf(connections, id)) + pending;
    }

    method OnRequestorFinished(id: nat)
      requires Ordered(Snapshot()) && id in inFlight && id !in refreshConnections
      modifies this
      ensures Snapshot() == ReplyArrived(old(Snapshot()), id)
      ensures Ordered(Snapshot())
      ensures CallsAhead(pending, id, old(ListenersOf(connections, id)), old(pending))
    {
      FiresAt(id, ListenersOf(connections, id));
      ReplyKeeps(Snapshot(), id);
      inFlight := inFlight - {id};
      Finish(id);
    }

    /** The slot of one connected request, called while the shared signal is being emitted. */
    method OnO2RefreshFinished(id: nat)
      requires Ordered(Snapshot()) && pending != [] && pending[0] == RefreshSlot(id)
      modifies this
      ensures Snapshot() == Deliver(old(Snapshot()))
      ensures Ordered(Snapshot())
      ensures CallsAhead(pending, id, old(ListenersOf(connections, id)), old(pending)[1..])
    {
      FiresAt(id, ListenersOf(connections, id));
      DeliverKeeps(Snapshot());
      pending := pending[1..];
      Finish(id);
    }
  }
}
