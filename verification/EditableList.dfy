/** Moving the selected items of a list widget (shared/properties-view/properties-view.cpp). */
module EditableList {

  datatype ListItem = ListItem(text: string, selected: bool)

  function Selected(s: seq<ListItem>): seq<ListItem> {
    if s == [] then [] else (if s[0].selected then [s[0]] else []) + Selected(s[1..])
  }

  function Unselected(s: seq<ListItem>): seq<ListItem> {
    if s == [] then [] else (if s[0].selected then [] else [s[0]]) + Unselected(s[1..])
  }

  /** The length of the selected prefix. */
  function Prefix(s: seq<ListItem>): (k: nat)
    ensures k <= |s|
    ensures forall i :: 0 <= i < k ==> s[i].selected
    ensures k < |s| ==> !s[k].selected
  {
    if s == [] || !s[0].selected then 0 else 1 + Prefix(s[1..])
  }

  /** From an unselected item on: every selected item changes places with the item before it. */
  function Shift(t: seq<ListItem>): (r: seq<ListItem>)
    ensures |r| == |t|
    decreases |t|
  {
    if |t| <= 1 then t
    else if t[1].selected then [t[1]] + Shift([t[0]] + t[2..])
    else [t[0]] + Shift(t[1..])
  }

  /** The list after the selected items have moved up. */
  function Up(s: seq<ListItem>): (r: seq<ListItem>)
    ensures |r| == |s|
  {
    s[..Prefix(s)] + Shift(s[Prefix(s)..])
  }

  function Reverse(s: seq<ListItem>): (r: seq<ListItem>)
    ensures |r| == |s|
    ensures forall i :: 0 <= i < |s| ==> r[i] == s[|s| - 1 - i]
  {
    seq(|s|, i requires 0 <= i < |s| => s[|s| - 1 - i])
  }

  /** The list after the selected items have moved down. */
  function Down(s: seq<ListItem>): seq<ListItem> { Reverse(Up(Reverse(s))) }

  // ---- what moving up does ----

  lemma {:induction false} SelectedAdds(a: seq<ListItem>, b: seq<ListItem>)
    ensures Selected(a + b) == Selected(a) + Selected(b)
  {
    if a == [] {
      assert a + b == b;
    } else {
      assert (a + b)[0] == a[0] && (a + b)[1..] == a[1..] + b;
      SelectedAdds(a[1..], b);
    }
  }

  lemma {:induction false} UnselectedAdds(a: seq<ListItem>, b: seq<ListItem>)
    ensures Unselected(a + b) == Unselected(a) + Unselected(b)
  {
    if a == [] {
      assert a + b == b;
    } else {
      assert (a + b)[0] == a[0] && (a + b)[1..] == a[1..] + b;
      UnselectedAdds(a[1..], b);
    }
  }

  lemma PartsAdd(a: seq<ListItem>, b: seq<ListItem>)
    ensures Selected(a + b) == Selected(a) + Selected(b)
    ensures Unselected(a + b) == Unselected(a) + Unselected(b)
  {
    SelectedAdds(a, b);
    UnselectedAdds(a, b);
  }

  lemma {:induction false} ShiftKeepsParts(t: seq<ListItem>)
    requires t != [] ==> !t[0].selected
    ensures Selected(Shift(t)) == Selected(t) && Unselected(Shift(t)) == Unselected(t)
    decreases |t|
  {
    if |t| > 1 {
      var first, second, rest := [t[0]], [t[1]], t[2..];
      assert t == first + second + rest && t[1..] == second + rest;
      PartsAdd(first + second, rest);
      PartsAdd(first, second);
      PartsAdd(first, rest);
      PartsAdd(second, rest);
      if t[1].selected {
        ShiftKeepsParts(first + rest);
        PartsAdd(second, Shift(first + rest));
      } else {
        ShiftKeepsParts(t[1..]);
        PartsAdd(first, Shift(t[1..]));
      }
    }
  }

  /** Every selected item after the first, unselected, one ends one place further up. */
  lemma {:induction false} ShiftMovesByOne(t: seq<ListItem>, i: nat)
    requires 0 < i < |t| && !t[0].selected && t[i].selected
    ensures Shift(t)[i - 1] == t[i]
    decreases |t|
  {
    if t[1].selected {
      if i > 1 {
        var t' := [t[0]] + t[2..];
        assert t'[i - 1] == t[i];
        ShiftMovesByOne(t', i - 1);
      }
    } else {
      ShiftMovesByOne(t[1..], i - 1);
    }
  }

  /** Moving up keeps the order among the selected and among the unselected items. */
  lemma UpKeepsOrders(s: seq<ListItem>)
    ensures Selected(Up(s)) == Selected(s) && Unselected(Up(s)) == Unselected(s)
  {
    var k := Prefix(s);
    assert s == s[..k] + s[k..];
    PartsAdd(s[..k], s[k..]);
    PartsAdd(s[..k], Shift(s[k..]));
    ShiftKeepsParts(s[k..]);
  }

  /** It leaves the selected prefix in place and moves every other selected item up by exactly one. */
  lemma UpMovesByOne(s: seq<ListItem>, i: nat)
    requires i < |s| && s[i].selected
    ensures if i < Prefix(s) then Up(s)[i] == s[i] else i > 0 && Up(s)[i - 1] == s[i]
  {
    var k := Prefix(s);
    if i >= k {
      ShiftMovesByOne(s[k..], i - k);
      assert Up(s)[i - 1] == Shift(s[k..])[i - k - 1];
    }
  }

  lemma {:induction false} PartsMakeAll(s: seq<ListItem>)
    ensures multiset(s) == multiset(Selected(s)) + multiset(Unselected(s))
  {
    if s != [] {
      PartsMakeAll(s[1..]);
      assert s == [s[0]] + s[1..];
    }
  }

  lemma UpPermutes(s: seq<ListItem>)
    ensures multiset(Up(s)) == multiset(s)
  {
    UpKeepsOrders(s);
    PartsMakeAll(s);
    PartsMakeAll(Up(s));
  }

  lemma ReverseAdd(a: seq<ListItem>, b: seq<ListItem>)
    ensures Reverse(a + b) == Reverse(b) + Reverse(a)
  {
  }

  lemma {:induction false} SelectedReverse(s: seq<ListItem>)
    ensures Selected(Reverse(s)) == Reverse(Selected(s))
  {
    if s != [] {
      var first, rest := [s[0]], s[1..];
      assert s == first + rest;
      ReverseAdd(first, rest);
      ReverseAdd(Selected(first), Selected(rest));
      SelectedReverse(rest);
      SelectedAdds(Reverse(rest), Reverse(first));
    }
  }

  lemma {:induction false} UnselectedReverse(s: seq<ListItem>)
    ensures Unselected(Reverse(s)) == Reverse(Unselected(s))
  {
    if s != [] {
      var first, rest := [s[0]], s[1..];
      assert s == first + rest;
      ReverseAdd(first, rest);
      ReverseAdd(Unselected(first), Unselected(rest));
      UnselectedReverse(rest);
      UnselectedAdds(Reverse(rest), Reverse(first));
    }
  }

  lemma ReverseTwice(s: seq<ListItem>)
    ensures Reverse(Reverse(s)) == s
  {
  }

  /** Moving down keeps the same two orders. */
  lemma DownKeepsOrders(s: seq<ListItem>)
    ensures Selected(Down(s)) == Selected(s) && Unselected(Down(s)) == Unselected(s)
  {
    var r := Reverse(s);
    UpKeepsOrders(r);
    SelectedReverse(s);
    UnselectedReverse(s);
    SelectedReverse(Up(r));
    UnselectedReverse(Up(r));
    ReverseTwice(Selected(s));
    ReverseTwice(Unselected(s));
  }

  /** It leaves the selected suffix in place and moves every other selected item down by exactly one. */
  lemma DownMovesByOne(s: seq<ListItem>, i: nat)
    requires i < |s| && s[i].selected
    ensures if |s| - 1 - i < Prefix(Reverse(s)) then Down(s)[i] == s[i]
            else i + 1 < |s| && Down(s)[i + 1] == s[i]
  {
    UpMovesByOne(Reverse(s), |s| - 1 - i);
  }

  // ---- the loops ----

  function Swapped(s: seq<ListItem>, i: nat): seq<ListItem>
    requires i + 1 < |s|
  {
    s[i := s[i + 1]][i + 1 := s[i]]
  }

  /** Where the upward loop stands after `i` rows: still within the selected prefix, or carrying an unselected item. */
  ghost predicate UpTo(before: seq<ListItem>, now: seq<ListItem>, i: nat, lastItemRow: int) {
    && |now| == |before| && i <= |now|
    && if i <= Prefix(before)
       then now == before && lastItemRow == i - 1
       else lastItemRow < i - 1 && !now[i - 1].selected
            && now[..i - 1] + Shift(now[i - 1..]) == Up(before)
  }

  lemma UpPassesUnselected(before: seq<ListItem>, now: seq<ListItem>, i: nat, lastItemRow: int)
    requires UpTo(before, now, i, lastItemRow) && i < |now| && !now[i].selected
    ensures UpTo(before, now, i + 1, lastItemRow)
  {
  }

  lemma UpCarries(before: seq<ListItem>, now: seq<ListItem>, i: nat, lastItemRow: int)
    requires UpTo(before, now, i, lastItemRow) && i < |now| && now[i].selected && i - 1 != lastItemRow
    ensures i > 0 && UpTo(before, Swapped(now, i - 1), i + 1, i - 1)
  {
    var t, next := now[i - 1..], Swapped(now, i - 1);
    assert t[0] == now[i - 1] && t[1] == now[i] && t[2..] == now[i + 1..];
    assert Shift(t) == [t[1]] + Shift([t[0]] + t[2..]);
    assert next[i..] == [t[0]] + t[2..];
    assert next[..i] == now[..i - 1] + [t[1]];
  }

  /** One row further: a selected row that does not follow the last one moved changes places with the row above. */
  lemma UpStep(before: seq<ListItem>, now: seq<ListItem>, i: nat, lastItemRow: int)
    requires UpTo(before, now, i, lastItemRow) && i < |now|
    ensures !now[i].selected ==> UpTo(before, now, i + 1, lastItemRow)
    ensures now[i].selected && i - 1 == lastItemRow ==> UpTo(before, now, i + 1, i)
    ensures now[i].selected && i - 1 != lastItemRow ==> i > 0 && UpTo(before, Swapped(now, i - 1), i + 1, i - 1)
  {
    if !now[i].selected {
      UpPassesUnselected(before, now, i, lastItemRow);
    } else if i - 1 != lastItemRow {
      UpCarries(before, now, i, lastItemRow);
    }
  }

  /** The downward loop is the upward one on the mirrored list. */
  ghost predicate DownTo(before: seq<ListItem>, now: seq<ListItem>, i: int, lastItemRow: int) {
    && |now| == |before| && -1 <= i < |now|
    && UpTo(Reverse(before), Reverse(now), |now| - 1 - i, |now| - 1 - lastItemRow)
  }

  lemma SwapReversed(s: seq<ListItem>, i: nat)
    requires i + 1 < |s|
    ensures Reverse(Swapped(s, i)) == Swapped(Reverse(s), |s| - 2 - i)
  {
  }

  lemma DownStep(before: seq<ListItem>, now: seq<ListItem>, i: int, lastItemRow: int)
    requires DownTo(before, now, i, lastItemRow) && i >= 0
    ensures !now[i].selected ==> DownTo(before, now, i - 1, lastItemRow)
    ensures now[i].selected && i + 1 == lastItemRow ==> DownTo(before, now, i - 1, i)
    ensures now[i].selected && i + 1 != lastItemRow ==>
      i + 1 < |now| && DownTo(before, Swapped(now, i), i - 1, i + 1)
  {
    hide UpTo, Up, Shift, Prefix;
    UpStep(Reverse(before), Reverse(now), |now| - 1 - i, |now| - 1 - lastItemRow);
    if now[i].selected && i + 1 != lastItemRow {
      SwapReversed(now, i);
    }
  }

  lemma DownDone(before: seq<ListItem>, now: seq<ListItem>, lastItemRow: int)
    requires DownTo(before, now, -1, lastItemRow)
    ensures now == Down(before)
  {
  }

  lemma UpDone(before: seq<ListItem>, now: seq<ListItem>, lastItemRow: int)
    requires UpTo(before, now, |now|, lastItemRow)
    ensures now == Up(before)
  {
  }

  class ListWidget {
    var items: seq<ListItem>

    constructor (items: seq<ListItem>)
      ensures this.items == items
    {
      this.items := items;
    }

    /** An item taken out of the list is no longer selected. */
    method TakeItem(row: nat) returns (item: ListItem)
      requires row < |items|
      modifies this
      ensures items == old(items)[..row] + old(items)[row + 1..]
      ensures item == old(items)[row].(selected := false)
    {
      item := items[row].(selected := false);
      items := items[..row] + items[row + 1..];
    }

    method InsertItem(row: nat, item: ListItem)
      requires row <= |items|
      modifies this
      ensures items == old(items)[..row] + [item] + old(items)[row..]
    {
      items := items[..row] + [item] + items[row..];
    }

    method SetSelected(row: nat, value: bool)
      requires row < |items|
      modifies this
      ensures items == old(items)[row := old(items)[row].(selected := value)]
    {
      items := items[row := items[row].(selected := value)];
    }

    /** Take a selected item out and put it back at a neighbouring row. */
    method MoveSelected(row: nat, to: nat)
      requires row < |items| && to < |items| && items[row].selected && (to + 1 == row || to == row + 1)
      modifies this
      ensures items == Swapped(old(items), if to < row then to else row)
    {
      var item := TakeItem(row);
      InsertItem(to, item);
      SetSelected(to, true);
    }

    method EditListUp()
      modifies this
      ensures items == Up(old(items))
    {
      hide Up, Shift, Prefix;
      var lastItemRow := -1;
      var i := 0;
      while i < |items|
        invariant UpTo(old(items), items, i, lastItemRow)
        decreases |items| - i
      {
        UpStep(old(items), items, i, lastItemRow);
        if items[i].selected {
          var row := i;
          if row - 1 != lastItemRow {
            lastItemRow := row - 1;
            MoveSelected(row, lastItemRow);
          } else {
            lastItemRow := row;
          }
        }
        i := i + 1;
      }
      UpDone(old(items), items, lastItemRow);
    }

    method EditListDown()
      modifies this
      ensures items == Down(old(items))
    {
      hide Up, Down, Shift, Prefix;
      var lastItemRow := |items|;
      var i := |items| - 1;
      while i >= 0
        invariant DownTo(old(items), items, i, lastItemRow)
        decreases i
      {
        DownStep(old(items), items, i, lastItemRow);
        if items[i].selected {
          var row := i;
          if row + 1 != lastItemRow {
            lastItemRow := row + 1;
            MoveSelected(row, lastItemRow);
          } else {
            lastItemRow := row;
          }
        }
        i := i - 1;
      }
      DownDone(old(items), items, lastItemRow);
    }
  }
}
