/** Lists of records kept in step with the server by a log of messages (src/api-client.cpp). */
module ReplicatedLists {
  import opened Schema

  function IndexOfId<T>(list: seq<T>, key: T -> string, id: string): (i: int)
    ensures -1 <= i < |list|
    ensures 0 <= i ==> key(list[i]) == id
    ensures i < 0 ==> forall j :: 0 <= j < |list| ==> key(list[j]) != id
  {
    FirstIndex(list, (x: T) => key(x) == id)
  }

  /** An `added` or `changed` message: replace the entry with that id, or append. */
  function Upsert<T>(list: seq<T>, key: T -> string, id: string, value: T): seq<T> {
    var i := IndexOfId(list, key, id);
    if i >= 0 then list[i := value] else list + [value]
  }

  /** A `removed` message. */
  function RemoveId<T>(list: seq<T>, key: T -> string, id: string): seq<T> {
    var i := IndexOfId(list, key, id);
    if i >= 0 then list[..i] + list[i + 1..] else list
  }

  datatype Change<T> = Put(id: string, value: T) | Delete(id: string)

  function Apply<T>(list: seq<T>, key: T -> string, c: Change<T>): seq<T> {
    match c
    case Put(id, value) => Upsert(list, key, id, value)
    case Delete(id) => RemoveId(list, key, id)
  }

  function ApplyAll<T>(list: seq<T>, key: T -> string, log: seq<Change<T>>): seq<T>
    decreases |log|
  {
    if log == [] then list else Apply(ApplyAll(list, key, log[..|log| - 1]), key, log[|log| - 1])
  }

  /** The merge of an invite code's participants is a log of puts. */
  function MergeLog<T>(values: seq<T>, key: T -> string): (log: seq<Change<T>>)
    ensures |log| == |values|
    ensures forall i :: 0 <= i < |log| ==> log[i] == Put(key(values[i]), values[i])
  {
    seq(|values|, i requires 0 <= i < |values| => Put(key(values[i]), values[i]))
  }

  /** The same log on a finite map. */
  function MapApply<T>(m: map<string, T>, c: Change<T>): map<string, T> {
    match c
    case Put(id, value) => m[id := value]
    case Delete(id) => m - {id}
  }

  function MapApplyAll<T>(m: map<string, T>, log: seq<Change<T>>): map<string, T>
    decreases |log|
  {
    if log == [] then m else MapApply(MapApplyAll(m, log[..|log| - 1]), log[|log| - 1])
  }

  ghost predicate Distinct<T>(list: seq<T>, key: T -> string) {
    forall i, j :: 0 <= i < j < |list| ==> key(list[i]) != key(list[j])
  }

  predicate HasId<T>(list: seq<T>, key: T -> string, id: string) {
    exists i :: 0 <= i < |list| && key(list[i]) == id
  }

  /** The list and the map hold the same records. */
  ghost predicate Represents<T>(list: seq<T>, key: T -> string, m: map<string, T>) {
    && Distinct(list, key)
    && (forall i :: 0 <= i < |list| ==> key(list[i]) in m && m[key(list[i])] == list[i])
    && (forall id :: id in m ==> HasId(list, key, id))
  }

  /** The message id is the id of its payload. */
  predicate Consistent<T>(c: Change<T>, key: T -> string) { c.Put? ==> key(c.value) == c.id }

  /** `a` stands before `b`. */
  ghost predicate Before<T>(list: seq<T>, key: T -> string, a: string, b: string) {
    exists i, j :: 0 <= i < j < |list| && key(list[i]) == a && key(list[j]) == b
  }

  lemma ReplaceRepresents<T>(list: seq<T>, key: T -> string, m: map<string, T>, i: nat, value: T)
    requires Represents(list, key, m) && i < |list| && key(list[i]) == key(value)
    ensures Represents(list[i := value], key, m[key(value) := value])
  {
    var list' := list[i := value];
    forall id | id in m ensures HasId(list', key, id) {
      var k :| 0 <= k < |list| && key(list[k]) == id;
      assert key(list'[k]) == id;
    }
  }

  lemma AppendRepresents<T>(list: seq<T>, key: T -> string, m: map<string, T>, value: T)
    requires Represents(list, key, m) && !HasId(list, key, key(value))
    ensures Represents(list + [value], key, m[key(value) := value])
  {
    var list' := list + [value];
    assert key(list'[|list|]) == key(value);
    forall id | id in m ensures HasId(list', key, id) {
      var k :| 0 <= k < |list| && key(list[k]) == id;
      assert key(list'[k]) == id;
    }
  }

  lemma DropRepresents<T>(list: seq<T>, key: T -> string, m: map<string, T>, i: nat)
    requires Represents(list, key, m) && i < |list|
    ensures Represents(list[..i] + list[i + 1..], key, m - {key(list[i])})
  {
    var list' := list[..i] + list[i + 1..];
    forall id | id in m && id != key(list[i]) ensures HasId(list', key, id) {
      var k :| 0 <= k < |list| && key(list[k]) == id;
      assert key(list'[if i < k then k - 1 else k]) == id;
    }
  }

  lemma UpsertRepresents<T>(list: seq<T>, key: T -> string, m: map<string, T>, id: string, value: T)
    requires Represents(list, key, m) && key(value) == id
    ensures Represents(Upsert(list, key, id, value), key, m[id := value])
  {
    var i := IndexOfId(list, key, id);
    if i >= 0 {
      ReplaceRepresents(list, key, m, i, value);
    } else {
      AppendRepresents(list, key, m, value);
    }
  }

  lemma RemoveRepresents<T>(list: seq<T>, key: T -> string, m: map<string, T>, id: string)
    requires Represents(list, key, m)
    ensures Represents(RemoveId(list, key, id), key, m - {id})
  {
    var i := IndexOfId(list, key, id);
    if i >= 0 {
      DropRepresents(list, key, m, i);
    } else {
      assert m - {id} == m;
    }
  }

  lemma ApplyRepresents<T>(list: seq<T>, key: T -> string, m: map<string, T>, c: Change<T>)
    requires Represents(list, key, m) && Consistent(c, key)
    ensures Represents(Apply(list, key, c), key, MapApply(m, c))
  {
    match c
    case Put(id, value) => UpsertRepresents(list, key, m, id, value);
    case Delete(id) => RemoveRepresents(list, key, m, id);
  }

  /** Any log of consistent messages keeps ids distinct and means what it means on a map. */
  lemma {:induction false} LogRefinesMap<T>(list: seq<T>, key: T -> string, m: map<string, T>, log: seq<Change<T>>)
    requires Represents(list, key, m)
    requires forall i :: 0 <= i < |log| ==> Consistent(log[i], key)
    ensures Represents(ApplyAll(list, key, log), key, MapApplyAll(m, log))
    decreases |log|
  {
    if log != [] {
      var before := log[..|log| - 1];
      LogRefinesMap(list, key, m, before);
      ApplyRepresents(ApplyAll(list, key, before), key, MapApplyAll(m, before), log[|log| - 1]);
    }
  }

  /** A put whose payload carries another id keeps ids distinct exactly when no other entry has that id. */
  lemma UpsertDistinctIff<T>(list: seq<T>, key: T -> string, id: string, value: T)
    requires Distinct(list, key)
    ensures Distinct(Upsert(list, key, id, value), key) <==> (key(value) == id || !HasId(list, key, key(value)))
  {
    var i := IndexOfId(list, key, id);
    var list' := Upsert(list, key, id, value);
    if key(value) != id && HasId(list, key, key(value)) {
      var k :| 0 <= k < |list| && key(list[k]) == key(value);
      var at := if i >= 0 then i else |list|;
      assert key(list'[k]) == key(list'[at]);
    }
  }

  /** Where entry `k` of the list is after the message. */
  function Moved<T>(list: seq<T>, key: T -> string, c: Change<T>, k: int): int {
    if c.Delete? && 0 <= IndexOfId(list, key, c.id) < k then k - 1 else k
  }

  lemma EntryMoves<T>(list: seq<T>, key: T -> string, c: Change<T>, k: nat)
    requires Distinct(list, key) && Consistent(c, key) && k < |list|
    requires c.Delete? ==> c.id != key(list[k])
    ensures 0 <= Moved(list, key, c, k) < |Apply(list, key, c)|
    ensures key(Apply(list, key, c)[Moved(list, key, c, k)]) == key(list[k])
  {
  }

  lemma ApplyKeepsOrder<T>(list: seq<T>, key: T -> string, c: Change<T>, a: string, b: string)
    requires Distinct(list, key) && Consistent(c, key)
    requires c.Delete? ==> c.id != a && c.id != b
    requires HasId(list, key, a)
    ensures HasId(Apply(list, key, c), key, a)
    ensures Before(list, key, a, b) ==> Before(Apply(list, key, c), key, a, b)
    ensures !HasId(list, key, b) && HasId(Apply(list, key, c), key, b) ==> Before(Apply(list, key, c), key, a, b)
  {
    var p :| 0 <= p < |list| && key(list[p]) == a;
    EntryMoves(list, key, c, p);
    if Before(list, key, a, b) {
      var x, y :| 0 <= x < y < |list| && key(list[x]) == a && key(list[y]) == b;
      EntryMoves(list, key, c, x);
      EntryMoves(list, key, c, y);
      assert Moved(list, key, c, x) < Moved(list, key, c, y);
    }
    if !HasId(list, key, b) && HasId(Apply(list, key, c), key, b) {
      NewcomerIsLast(list, key, c, b);
    }
  }

  /** An id found after the message was there before, or is that of a new last entry. */
  lemma OldOrNew<T>(list: seq<T>, key: T -> string, c: Change<T>, k: nat)
    requires Consistent(c, key) && k < |Apply(list, key, c)|
    ensures HasId(list, key, key(Apply(list, key, c)[k])) || (c.Put? && k == |list| && IndexOfId(list, key, c.id) < 0)
  {
    var i := IndexOfId(list, key, c.id);
    var b := key(Apply(list, key, c)[k]);
    if c.Delete? {
      assert key(list[if 0 <= i <= k then k + 1 else k]) == b;
    } else if k < |list| {
      assert key(list[k]) == b;
    }
  }

  lemma NewcomerIsLast<T>(list: seq<T>, key: T -> string, c: Change<T>, b: string)
    requires Consistent(c, key) && !HasId(list, key, b) && HasId(Apply(list, key, c), key, b)
    ensures |Apply(list, key, c)| == |list| + 1 && key(Apply(list, key, c)[|list|]) == b
    ensures Apply(list, key, c)[..|list|] == list
  {
    var k :| 0 <= k < |Apply(list, key, c)| && key(Apply(list, key, c)[k]) == b;
    OldOrNew(list, key, c, k);
  }

  /** Entries that are never removed keep their relative order, and stand before everything that arrives, or arrives
      again, later. */
  lemma {:induction false} LogKeepsOrder<T>(list: seq<T>, key: T -> string, m: map<string, T>, log: seq<Change<T>>,
                                            a: string, b: string)
    requires Represents(list, key, m) && HasId(list, key, a)
    requires forall i :: 0 <= i < |log| ==> Consistent(log[i], key) && log[i] != Delete(a)
    ensures HasId(ApplyAll(list, key, log), key, a)
    ensures Before(list, key, a, b) && Delete(b) !in log ==> Before(ApplyAll(list, key, log), key, a, b)
    ensures (!HasId(list, key, b) || Delete(b) in log) && HasId(ApplyAll(list, key, log), key, b)
        ==> Before(ApplyAll(list, key, log), key, a, b)
    decreases |log|
  {
    if log != [] {
      var before := log[..|log| - 1];
      var last := log[|log| - 1];
      var mid := ApplyAll(list, key, before);
      LogKeepsOrder(list, key, m, before, a, b);
      LogRefinesMap(list, key, m, before);
      if last == Delete(b) {
        ApplyRepresents(mid, key, MapApplyAll(m, before), last);
        ApplyKeepsOrder(mid, key, last, a, a);
      } else {
        ApplyKeepsOrder(mid, key, last, a, b);
      }
    }
  }

  /** A merge of participants leaves each merged id with its last value, and every other entry as it was. */
  lemma MergeIsConsistent<T>(list: seq<T>, key: T -> string, m: map<string, T>, values: seq<T>)
    requires Represents(list, key, m)
    ensures Represents(ApplyAll(list, key, MergeLog(values, key)), key, MapApplyAll(m, MergeLog(values, key)))
  {
    LogRefinesMap(list, key, m, MergeLog(values, key));
  }
}
