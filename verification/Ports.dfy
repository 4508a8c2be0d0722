/** The ports of the ingress sources: one table shared by all sources of the client
    (src/api-client.cpp, src/sources/ingress-link-source.cpp). */
module Ports {
  import opened Schema

  /** The lowest unused port from `min` to `max`. */
  function LowestFree(used: set<int>, min: int, max: int): (port: Option<int>)
    ensures port.Some? ==> min <= port.value <= max && port.value !in used
                           && forall p :: min <= p < port.value ==> p in used
    ensures port.None? ==> forall p :: min <= p <= max ==> p in used
    decreases max - min
  {
    if min > max then None
    else if min !in used then Some(min)
    else LowestFree(used, min + 1, max)
  }

  lemma LowestFreeIsUnique(used: set<int>, min: int, max: int, p: int)
    requires min <= p <= max && p !in used
    requires forall q :: min <= q < p ==> q in used
    ensures LowestFree(used, min, max) == Some(p)
  {
  }

  /** `getPort()` and `getRelay()` of a source's request; port 0 means none. */
  datatype Source = Source(port: int, relay: bool)

  const NEW_SOURCE := Source(0, false)

  datatype PortTable = PortTable(used: set<int>, sources: map<nat, Source>)

  /** The marks left after a source has let go of its port. */
  function Released(used: set<int>, port: int): set<int> {
    if port != 0 then used - {port} else used
  }

  /** What a source does to the marks when it captures new settings. */
  function Recapture(used: set<int>, port: int, relay: bool, min: int, max: int): (set<int>, int) {
    var rest := Released(used, port);
    if relay then (rest, 0)
    else match LowestFree(rest, min, max)
      case Some(p) => (rest + {p}, p)
      case None => (rest, 0)
  }

  datatype PortEvent =
    | Captured(id: nat, relay: bool, min: int, max: int)  // creation or new settings
    | Removed(id: nat)

  function PortStep(t: PortTable, e: PortEvent): PortTable {
    match e
    case Captured(id, relay, min, max) =>
      var was := if id in t.sources then t.sources[id] else NEW_SOURCE;
      var (used, port) := Recapture(t.used, was.port, relay, min, max);
      PortTable(used, t.sources[id := Source(port, relay)])
    case Removed(id) =>
      if id !in t.sources then t
      else PortTable(Released(t.used, t.sources[id].port), t.sources - {id})
  }

  function PortRun(t: PortTable, events: seq<PortEvent>): PortTable
    decreases |events|
  {
    if events == [] then t else PortStep(PortRun(t, events[..|events| - 1]), events[|events| - 1])
  }

  predicate Holds(t: PortTable, id: nat, port: int) {
    id in t.sources && t.sources[id].port == port && port != 0
  }

  /** A port is marked exactly when one live source holds it; relay sources hold none. */
  ghost predicate Exact(t: PortTable) {
    && (forall p :: p in t.used <==> exists id :: Holds(t, id, p))
    && (forall id, other, p :: Holds(t, id, p) && Holds(t, other, p) ==> id == other)
    && (forall id :: id in t.sources && t.sources[id].relay ==> t.sources[id].port == 0)
  }

  /** The allocator hands out port 0, which the source then takes for no port at all. */
  predicate HandsOutZero(t: PortTable, e: PortEvent) {
    && e.Captured? && !e.relay
    && LowestFree(Released(t.used, if e.id in t.sources then t.sources[e.id].port else 0), e.min, e.max) == Some(0)
  }

  ghost predicate HeldByOther(t: PortTable, id: nat, port: int) {
    exists other :: other != id && Holds(t, other, port)
  }

  /** A direct source asks for a range with 0 in it, and the others hold every port below 0 in that range. */
  ghost predicate AsksForZero(t: PortTable, e: PortEvent) {
    e.Captured? && !e.relay && e.min <= 0 <= e.max && forall p :: e.min <= p < 0 ==> HeldByOther(t, e.id, p)
  }

  /** The marks left after the capturing source has let go are those of the other sources. */
  lemma RestIsHeldByOthers(t: PortTable, id: nat, p: int)
    requires Exact(t)
    ensures p in Released(t.used, if id in t.sources then t.sources[id].port else 0) <==> HeldByOther(t, id, p)
  {
    var gone := if id in t.sources then t.sources[id].port else 0;
    if p in Released(t.used, gone) {
      var holder :| Holds(t, holder, p);
      assert holder != id;
    }
    if other :| other != id && Holds(t, other, p) {
      if p == gone && p != 0 {
        assert Holds(t, id, p);
      }
    }
  }

  lemma ZeroIffAskedFor(t: PortTable, e: PortEvent)
    requires Exact(t)
    ensures HandsOutZero(t, e) <==> AsksForZero(t, e)
  {
    if e.Captured? && !e.relay {
      var rest := Released(t.used, if e.id in t.sources then t.sources[e.id].port else 0);
      forall p ensures p in rest <==> HeldByOther(t, e.id, p) {
        RestIsHeldByOthers(t, e.id, p);
      }
      if AsksForZero(t, e) {
        assert !HeldByOther(t, e.id, 0);
        LowestFreeIsUnique(rest, e.min, e.max, 0);
      }
    }
  }

  /** One step keeps the table exact unless a direct source asks for a range in which 0 is the lowest port that no
      other source holds.  The settings dialog offers ports from 1 on; a stored value that is no number reads as 0. */
  lemma StepIsExactIff(t: PortTable, e: PortEvent)
    requires Exact(t)
    ensures Exact(PortStep(t, e)) <==> !AsksForZero(t, e)
  {
    StepIsExactUnlessZero(t, e);
    ZeroIffAskedFor(t, e);
  }

  lemma StepIsExactUnlessZero(t: PortTable, e: PortEvent)
    requires Exact(t)
    ensures Exact(PortStep(t, e)) <==> !HandsOutZero(t, e)
  {
    var t' := PortStep(t, e);
    forall p | p in t.used ensures exists id :: Holds(t, id, p) {}
    if HandsOutZero(t, e) {
      assert 0 in t'.used;
      assert forall id :: !Holds(t', id, 0);
    } else {
      var gone := if e.id in t.sources then t.sources[e.id].port else 0;
      forall p ensures p in t'.used <==> exists id :: Holds(t', id, p) {
        if id :| Holds(t, id, p) {
          if id != e.id {
            assert Holds(t', id, p);
          }
        }
        if e.Captured? && p == t'.sources[e.id].port && p != 0 {
          assert Holds(t', e.id, p);
        }
        if id :| Holds(t', id, p) {
          if id != e.id {
            assert Holds(t, id, p);
            if p == gone && p != 0 {
              assert Holds(t, e.id, p);
            }
          }
        }
      }
      forall id, other, p | Holds(t', id, p) && Holds(t', other, p) ensures id == other {
        if id != e.id {
          assert Holds(t, id, p);
        }
        if other != e.id {
          assert Holds(t, other, p);
        }
        if gone != 0 && p == gone {
          assert Holds(t, e.id, p);
        }
      }
    }
  }

  /** A port range that leaves out 0. */
  predicate AvoidsZero(e: PortEvent) { e.Captured? ==> !(e.min <= 0 <= e.max) }

  /** Over any run of captures, range changes and removals with ranges that leave out 0, the table stays exact. */
  lemma {:induction false} RunIsExact(t: PortTable, events: seq<PortEvent>)
    requires Exact(t)
    requires forall i :: 0 <= i < |events| ==> AvoidsZero(events[i])
    ensures Exact(PortRun(t, events))
    decreases |events|
  {
    if events != [] {
      var before := events[..|events| - 1];
      RunIsExact(t, before);
      StepIsExactIff(PortRun(t, before), events[|events| - 1]);
    }
  }

  /** With port 0 in the range, a mark is left that no source holds. */
  lemma ZeroLeaks()
    ensures var t := PortRun(PortTable({}, map[]), [Captured(7, false, 0, 9), Removed(7)]);
      t.sources == map[] && 0 in t.used && !Exact(t)
  {
  }

  /** A direct source ends a capture with the lowest port of its range that no other source holds, or without one
      exactly when the others hold them all. */
  lemma CapturedPort(t: PortTable, e: PortEvent)
    requires Exact(t) && e.Captured? && !e.relay && AvoidsZero(e)
    ensures var port := PortStep(t, e).sources[e.id].port;
      && (port == 0 <==> forall p :: e.min <= p <= e.max ==> HeldByOther(t, e.id, p))
      && (port != 0 ==> e.min <= port <= e.max && !HeldByOther(t, e.id, port))
      && (port != 0 ==> forall p :: e.min <= p < port ==> HeldByOther(t, e.id, p))
  {
    var rest := Released(t.used, if e.id in t.sources then t.sources[e.id].port else 0);
    forall p ensures p in rest <==> HeldByOther(t, e.id, p) {
      RestIsHeldByOthers(t, e.id, p);
    }
  }
}
