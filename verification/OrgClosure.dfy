/** Which organisations a user may see: their own and everything below it, even if parent links form a cycle. */
module OrgClosure {
  import opened Graph

  /** An organisation row; a missing parent is the empty string, the key under which roots are grouped. */
  datatype Row = Row(id: string, parent: string)

  /** The child links, from parent to organisation. */
  function Links(rows: seq<Row>): seq<Edge> {
    seq(|rows|, i requires 0 <= i < |rows| => Edge(rows[i].parent, rows[i].id))
  }

  predicate ChildOf(rows: seq<Row>, parent: string, child: string) {
    Linked(Links(rows), parent, child)
  }

  ghost predicate Below(rows: seq<Row>, top: string, org: string) {
    Reaches(Links(rows), top, org)
  }

  function AllIds(rows: seq<Row>): set<string> {
    set row | row in rows :: row.id
  }

  function ChildrenOf(rows: seq<Row>, parent: string): seq<string> {
    if rows == [] then []
    else
      var last := rows[|rows| - 1];
      ChildrenOf(rows[..|rows| - 1], parent) + if last.parent == parent then [last.id] else []
  }

  function Grouped(byParent: map<string, seq<string>>, parent: string): seq<string> {
    if parent in byParent then byParent[parent] else []
  }

  lemma {:induction false} ChildrenAreLinked(rows: seq<Row>, parent: string, child: string)
    ensures child in ChildrenOf(rows, parent) <==> ChildOf(rows, parent, child)
  {
    if rows != [] {
      var init := rows[..|rows| - 1];
      ChildrenAreLinked(init, parent, child);
      assert Links(rows) == Links(init) + [Edge(rows[|rows| - 1].parent, rows[|rows| - 1].id)];
      if ChildOf(init, parent, child) {
        var i :| 0 <= i < |init| && Links(init)[i].source == parent && Links(init)[i].target == child;
        assert Links(rows)[i] == Links(init)[i];
      }
      if ChildOf(rows, parent, child) {
        var i :| 0 <= i < |rows| && Links(rows)[i].source == parent && Links(rows)[i].target == child;
        if i < |init| { assert Links(init)[i] == Links(rows)[i]; }
      }
      if rows[|rows| - 1] == Row(child, parent) {
        assert Links(rows)[|init|] == Edge(parent, child);
      }
    }
  }

  /** A view contains the views of everything in it. */
  lemma ViewsNest(rows: seq<Row>, a: string, b: string)
    requires Below(rows, a, b)
    ensures forall org :: Below(rows, b, org) ==> Below(rows, a, org)
  {
    forall org | Below(rows, b, org) ensures Below(rows, a, org) {
      ReachesTransitive(Links(rows), a, b, org);
    }
  }

  /** Organisations that can see each other see exactly the same: cycles are harmless. */
  lemma CycleSharesView(rows: seq<Row>, a: string, b: string)
    requires Below(rows, a, b) && Below(rows, b, a)
    ensures forall org :: Below(rows, a, org) <==> Below(rows, b, org)
  {
    ViewsNest(rows, a, b);
    ViewsNest(rows, b, a);
  }

  lemma ChildIsBelow(rows: seq<Row>, org: string, child: string)
    requires child in ChildrenOf(rows, org)
    ensures Below(rows, org, child) && child in AllIds(rows)
  {
    hide Reaches;
    ChildrenAreLinked(rows, org, child);
    ReachesItself(Links(rows), org);
    OneStep(Links(rows), org, org, child);
  }

  lemma OrgIsBelowItself(rows: seq<Row>, org: string)
    ensures Below(rows, org, org)
  {
    ReachesItself(Links(rows), org);
  }

  /** The shared visited set of the recursive walk. */
  class Walker {
    var visible: set<string>

    constructor ()
      ensures visible == {}
    {
      visible := {};
    }

    /** Everything the walk adds is below `org`, and its children are all visible afterwards. */
    method Walk(org: string, byParent: map<string, seq<string>>, ghost rows: seq<Row>, ghost universe: set<string>)
      requires forall parent :: Grouped(byParent, parent) == ChildrenOf(rows, parent)
      requires org in universe && visible <= universe && AllIds(rows) <= universe
      modifies this
      ensures old(visible) <= visible <= universe && org in visible
      ensures forall x :: x in visible - old(visible) ==> Below(rows, org, x)
      ensures forall x, child :: x in visible - old(visible) && ChildOf(rows, x, child) ==> child in visible
      decreases universe - visible
    {
      hide Below, ChildOf, ChildrenOf, AllIds;
      if org in visible {
        return;
      }
      ghost var before := visible;
      visible := visible + {org};
      OrgIsBelowItself(rows, org);
      var children := Grouped(byParent, org);
      for i := 0 to |children|
        invariant before + {org} <= visible <= universe
        invariant forall x :: x in visible - before ==> Below(rows, org, x)
        invariant forall x, child :: x in visible - before - {org} && ChildOf(rows, x, child) ==> child in visible
        invariant forall k :: 0 <= k < i ==> children[k] in visible
      {
        ChildIsBelow(rows, org, children[i]);
        ghost var middle := visible;
        Walk(children[i], byParent, rows, universe);
        ViewsNest(rows, org, children[i]);
      }
      forall child | ChildOf(rows, org, child) ensures child in visible {
        ChildrenAreLinked(rows, org, child);
      }
    }
  }

  /** visible_org_ids: for a super admin every organisation, otherwise exactly the user's own and those below it. */
  method VisibleOrgIds(rows: seq<Row>, isSuperAdmin: bool, org: string) returns (visible: set<string>)
    ensures isSuperAdmin ==> visible == AllIds(rows)
    ensures !isSuperAdmin ==> forall x :: x in visible <==> Below(rows, org, x)
  {
    if isSuperAdmin {
      return AllIds(rows);
    }
    var byParent: map<string, seq<string>> := map[];
    for i := 0 to |rows|
      invariant forall parent :: Grouped(byParent, parent) == ChildrenOf(rows[..i], parent)
    {
      assert rows[..i + 1][..i] == rows[..i];
      byParent := byParent[rows[i].parent := Grouped(byParent, rows[i].parent) + [rows[i].id]];
    }
    assert rows[..|rows|] == rows;
    var walker := new Walker();
    walker.Walk(org, byParent, rows, AllIds(rows) + {org});
    visible := walker.visible;
    assert Closed(Links(rows), visible) by {
      forall i | 0 <= i < |rows| && Links(rows)[i].source in visible ensures Links(rows)[i].target in visible {
        assert ChildOf(rows, Links(rows)[i].source, Links(rows)[i].target);
      }
    }
    forall x | Below(rows, org, x) ensures x in visible {
      ClosedHoldsReached(Links(rows), visible, org, x);
    }
  }
}
