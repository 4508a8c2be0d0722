/** The connection widgets of the dock follow the sources of the stage (src/UI/egress-link-dock.cpp). */
module ConnectionDock {

  class Widget {
    const source: string

    constructor (source: string)
      ensures this.source == source
    {
      this.source := source;
    }
  }

  function Names(widgets: seq<Widget>): (names: seq<string>)
    ensures |names| == |widgets|
    ensures forall i :: 0 <= i < |widgets| ==> names[i] == widgets[i].source
  {
    seq(|widgets|, i requires 0 <= i < |widgets| => widgets[i].source)
  }

  /** The widgets whose source is on the stage, in their order. */
  function Survivors(widgets: seq<Widget>, stage: seq<string>): seq<Widget> {
    if widgets == [] then []
    else Survivors(widgets[..|widgets| - 1], stage)
         + if widgets[|widgets| - 1].source in stage then [widgets[|widgets| - 1]] else []
  }

  /** The names of the stage that are not there yet, in stage order, each once. */
  function Newcomers(present: seq<string>, stage: seq<string>): seq<string> {
    if stage == [] then []
    else
      var earlier := Newcomers(present, stage[..|stage| - 1]);
      var name := stage[|stage| - 1];
      if name in present || name in earlier then earlier else earlier + [name]
  }

  ghost predicate Distinct<T>(s: seq<T>) {
    forall i, j :: 0 <= i < j < |s| ==> s[i] != s[j]
  }

  lemma {:induction false} SurvivorsMeaning(widgets: seq<Widget>, stage: seq<string>)
    requires Distinct(Names(widgets))
    ensures Distinct(Names(Survivors(widgets, stage)))
    ensures forall i :: 0 <= i < |Survivors(widgets, stage)| ==>
      Survivors(widgets, stage)[i] in widgets && Survivors(widgets, stage)[i].source in stage
    ensures forall i :: 0 <= i < |widgets| && widgets[i].source in stage ==> widgets[i] in Survivors(widgets, stage)
  {
    if widgets != [] {
      var front, last := widgets[..|widgets| - 1], widgets[|widgets| - 1];
      assert widgets == front + [last];
      assert Distinct(Names(front)) by {
        assert forall i :: 0 <= i < |front| ==> Names(front)[i] == Names(widgets)[i];
      }
      SurvivorsMeaning(front, stage);
      var kept := Survivors(front, stage);
      forall i | 0 <= i < |kept| ensures Names(kept)[i] != last.source {
        assert kept[i] in front;
        var k :| 0 <= k < |front| && front[k] == kept[i];
        assert Names(widgets)[k] != Names(widgets)[|widgets| - 1];
      }
    }
  }

  lemma {:induction false} NewcomersMeaning(present: seq<string>, stage: seq<string>)
    ensures Distinct(Newcomers(present, stage))
    ensures forall name :: name in Newcomers(present, stage) <==> name in stage && name !in present
  {
    if stage != [] {
      NewcomersMeaning(present, stage[..|stage| - 1]);
      assert forall name :: name in stage <==> name in stage[..|stage| - 1] || name == stage[|stage| - 1];
    }
  }

  /** Survivors stand in the order in which they stood. */
  lemma {:induction false} SurvivorsInOrder(widgets: seq<Widget>, stage: seq<string>, i: nat, j: nat, p: nat, q: nat)
    requires Distinct(widgets) && i < j < |Survivors(widgets, stage)| && p < |widgets| && q < |widgets|
    requires widgets[p] == Survivors(widgets, stage)[i] && widgets[q] == Survivors(widgets, stage)[j]
    ensures p < q
  {
    var front, last := widgets[..|widgets| - 1], |widgets| - 1;
    var kept := Survivors(front, stage);
    SurvivorsAreOld(front, stage);
    if i < |kept| {
      assert kept[i] in front;
      if j < |kept| {
        assert kept[j] in front;
        SurvivorsInOrder(front, stage, i, j, p, q);
      }
    }
  }

  /** Where the stage first has a name. */
  function FirstAt(stage: seq<string>, name: string): (i: nat)
    requires name in stage
    ensures i < |stage| && stage[i] == name && forall k :: 0 <= k < i ==> stage[k] != name
  {
    if name in stage[..|stage| - 1] then FirstAt(stage[..|stage| - 1], name) else |stage| - 1
  }

  /** Newcomers stand in the order in which the stage first has their names. */
  lemma {:induction false} NewcomersInOrder(present: seq<string>, stage: seq<string>, i: nat, j: nat)
    requires i < j < |Newcomers(present, stage)|
    ensures Newcomers(present, stage)[i] in stage && Newcomers(present, stage)[j] in stage
    ensures FirstAt(stage, Newcomers(present, stage)[i]) < FirstAt(stage, Newcomers(present, stage)[j])
  {
    var front := stage[..|stage| - 1];
    var earlier := Newcomers(present, front);
    NewcomersMeaning(present, front);
    NewcomersMeaning(present, stage);
    assert earlier[i] in earlier && earlier[i] in front;
    if j < |earlier| {
      assert earlier[j] in earlier && earlier[j] in front;
      NewcomersInOrder(present, front, i, j);
    } else {
      assert Newcomers(present, stage)[j] == stage[|stage| - 1];
      assert stage[|stage| - 1] !in front;
    }
  }

  /** The names shown after an update: those kept, then the newcomers. */
  function Shown(kept: seq<string>, stage: seq<string>): seq<string> { kept + Newcomers(kept, stage) }

  /** From widgets of distinct names, an update leaves exactly one widget for each name of the stage,
      even when the stage repeats names. */
  lemma OneWidgetPerName(widgets: seq<Widget>, stage: seq<string>)
    requires Distinct(Names(widgets))
    ensures var shown := Shown(Names(Survivors(widgets, stage)), stage);
      Distinct(shown) && forall name :: name in shown <==> name in stage
  {
    SurvivorsMeaning(widgets, stage);
    var kept := Names(Survivors(widgets, stage));
    NewcomersMeaning(kept, stage);
    forall name | name in kept ensures name in stage {
      var i :| 0 <= i < |kept| && kept[i] == name;
    }
  }

  /** `QList::removeOne`. */
  function RemoveOne(widgets: seq<Widget>, w: Widget): seq<Widget> {
    if widgets == [] then []
    else if widgets[0] == w then widgets[1..]
    else [widgets[0]] + RemoveOne(widgets[1..], w)
  }

  lemma {:induction false} RemoveBehind(front: seq<Widget>, w: Widget, rest: seq<Widget>)
    requires w !in front
    ensures RemoveOne(front + [w] + rest, w) == front + rest
  {
    var all := front + [w] + rest;
    if front == [] {
      assert all[1..] == rest && front + rest == rest;
    } else {
      assert all[0] == front[0] && all[1..] == front[1..] + [w] + rest;
      RemoveBehind(front[1..], w, rest);
    }
  }

  lemma {:induction false} SurvivorsAreOld(widgets: seq<Widget>, stage: seq<string>)
    ensures forall w :: w in Survivors(widgets, stage) ==> w in widgets
  {
    if widgets != [] {
      SurvivorsAreOld(widgets[..|widgets| - 1], stage);
    }
  }

  lemma {:induction false} SurvivorsDistinct(widgets: seq<Widget>, stage: seq<string>)
    requires Distinct(widgets)
    ensures Distinct(Survivors(widgets, stage))
  {
    if widgets != [] {
      var front := widgets[..|widgets| - 1];
      SurvivorsDistinct(front, stage);
      SurvivorsAreOld(front, stage);
      assert widgets[|widgets| - 1] !in front;
    }
  }

  class EgressLinkDock {
    var connectionWidgets: seq<Widget>

    constructor ()
      ensures connectionWidgets == []
    {
      connectionWidgets := [];
    }

    method HasSource(name: string, stage: seq<string>) returns (found: bool)
      ensures found <==> name in stage
    {
      for i := 0 to |stage|
        invariant name !in stage[..i]
      {
        if stage[i] == name {
          return true;
        }
      }
      return false;
    }

    method IsNewcomer(name: string) returns (newcomer: bool)
      ensures newcomer <==> name !in Names(connectionWidgets)
    {
      for i := 0 to |connectionWidgets|
        invariant forall k :: 0 <= k < i ==> connectionWidgets[k].source != name
      {
        if connectionWidgets[i].source == name {
          assert Names(connectionWidgets)[i] == name;
          return false;
        }
      }
      return true;
    }

    /** Survivors are the same objects in their old order, and new widgets for the newcomers follow. */
    method UpdateConnections(stage: seq<string>)
      requires Distinct(connectionWidgets)
      modifies this
      ensures var kept := Survivors(old(connectionWidgets), stage);
        && kept <= connectionWidgets
        && (forall i :: |kept| <= i < |connectionWidgets| ==> fresh(connectionWidgets[i]))
        && Names(connectionWidgets) == Shown(Names(kept), stage)
      ensures Distinct(connectionWidgets)
    {
      RemoveMissing(stage);
      ghost var kept := connectionWidgets;
      SurvivorsAreOld(old(connectionWidgets), stage);
      for i := 0 to |stage|
        invariant kept <= connectionWidgets
        invariant forall k :: |kept| <= k < |connectionWidgets| ==> fresh(connectionWidgets[k])
        invariant Names(connectionWidgets) == Names(kept) + Newcomers(Names(kept), stage[..i])
        invariant Distinct(connectionWidgets)
      {
        assert stage[..i + 1][..i] == stage[..i];
        var newcomer := IsNewcomer(stage[i]);
        if newcomer {
          var widget := new Widget(stage[i]);
          assert Names(connectionWidgets + [widget]) == Names(connectionWidgets) + [stage[i]];
          connectionWidgets := connectionWidgets + [widget];
        }
      }
      assert stage[..|stage|] == stage;
    }

    /** Remove the widgets whose source has left the stage, while going over a copy of the list. */
    method RemoveMissing(stage: seq<string>)
      requires Distinct(connectionWidgets)
      modifies this
      ensures connectionWidgets == Survivors(old(connectionWidgets), stage)
      ensures Distinct(connectionWidgets)
    {
      var copy := connectionWidgets;
      for i := 0 to |copy|
        invariant connectionWidgets == Survivors(copy[..i], stage) + copy[i..]
      {
        var widget := copy[i];
        ghost var front, rest := Survivors(copy[..i], stage), copy[i + 1..];
        assert copy[..i + 1][..i] == copy[..i];
        assert copy[i..] == [widget] + rest;
        assert connectionWidgets == front + [widget] + rest;
        var found := HasSource(widget.source, stage);
        if !found {
          SurvivorsAreOld(copy[..i], stage);
          RemoveBehind(front, widget, rest);
          connectionWidgets := RemoveOne(connectionWidgets, widget);
          assert Survivors(copy[..i + 1], stage) == front;
        } else {
          assert Survivors(copy[..i + 1], stage) == front + [widget];
        }
      }
      assert copy[..|copy|] == copy;
      SurvivorsDistinct(copy, stage);
    }
  }
}
