/** Which nodes a sample has, in which order, and which column each one stands in. */
module SampleLayout {
  import opened Sequences
  import opened Graph
  import opened Topology
  import opened LevelSample

  // ----- the nodes -----

  /** A kind the level wants and no device has. */
  predicate IsMissing(ds: seq<Device>, level: Level, kind: string) {
    kind in Essentials(level) && forall d :: d in ds ==> d.kind != kind
  }

  /**
   * The nodes are the Internet, every device with its own kind, a workstation when no device is one, and a sample
   * of each missing kind.
   */
  lemma NodesExactlyWhen(ds: seq<Device>, level: Level, n: Node)
    ensures n in Nodes(ds, level) <==>
            || n == Node("__internet__", "internet")
            || (exists d :: d in ds && n == Node(d.id, d.kind))
            || (n == Node("__workstation__", "workstation") && forall d :: d in ds ==> d.kind != "workstation")
            || (exists kind :: IsMissing(ds, level, kind) && n == Node("sample-" + kind, kind))
  {
    hide Essentials;
    var ordered, kinds := Ordered(ds), SampleKinds(ds, level);
    OrderedHas(ds);
    hide Ordered, SampleKinds, HasWorkstation;
    assert n in DeviceNodes(ordered) <==> exists d :: d in ordered && n == Node(d.id, d.kind) by {
      if n in DeviceNodes(ordered) {
        var i :| 0 <= i < |ordered| && DeviceNodes(ordered)[i] == n;
        assert ordered[i] in ordered;
      }
      if d :| d in ordered && n == Node(d.id, d.kind) {
        var i :| 0 <= i < |ordered| && ordered[i] == d;
        assert DeviceNodes(ordered)[i] == n;
      }
    }
    assert n in SampleNodes(kinds) <==> exists kind :: kind in kinds && n == Node("sample-" + kind, kind) by {
      if n in SampleNodes(kinds) {
        var i :| 0 <= i < |kinds| && SampleNodes(kinds)[i] == n;
        assert kinds[i] in kinds;
      }
      if kind :| kind in kinds && n == Node("sample-" + kind, kind) {
        var i :| 0 <= i < |kinds| && kinds[i] == kind;
        assert SampleNodes(kinds)[i] == n;
      }
    }
    SampleKindsAreMissing(ds, level);
    NoWorkstationExactlyWhen(ds);
  }

  lemma OrderedHas(ds: seq<Device>)
    ensures forall d :: d in Ordered(ds) <==> d in ds
  {
    OrderedIsPermutation(ds);
    forall d ensures d in Ordered(ds) <==> d in ds {
      assert d in Ordered(ds) <==> d in multiset(Ordered(ds));
      assert d in ds <==> d in multiset(ds);
    }
  }

  lemma SampleKindsAreMissing(ds: seq<Device>, level: Level)
    ensures forall kind :: kind in SampleKinds(ds, level) <==> IsMissing(ds, level, kind)
  {
    hide Essentials;
  }

  lemma NoWorkstationExactlyWhen(ds: seq<Device>)
    ensures HasWorkstation(ds) <==> !forall d :: d in ds ==> d.kind != "workstation"
  {
  }

  // ----- the order of the devices -----

  lemma {:induction false} OfKindOfSum(a: seq<Device>, b: seq<Device>, kind: string)
    ensures OfKind(a + b, kind) == OfKind(a, kind) + OfKind(b, kind)
  {
    if b == [] {
      assert a + b == a;
    } else {
      assert (a + b)[..|a + b| - 1] == a + b[..|b| - 1];
      OfKindOfSum(a, b[..|b| - 1], kind);
    }
  }

  lemma {:induction false} OfKindOfOwn(ds: seq<Device>, kind: string, other: string)
    ensures OfKind(OfKind(ds, kind), other) == if kind == other then OfKind(ds, kind) else []
  {
    if ds != [] {
      var init, last := ds[..|ds| - 1], ds[|ds| - 1];
      OfKindOfOwn(init, kind, other);
      OfKindOfSum(OfKind(init, kind), if last.kind == kind then [last] else [], other);
      assert [last][..0] == [] && OfKind([], other) == [];
    }
  }

  lemma {:induction false} GroupedKeepsOrder(ds: seq<Device>, kinds: seq<string>, kind: string)
    requires NoRepeats(kinds)
    ensures OfKind(Grouped(ds, kinds), kind) == if kind in kinds then ByType(ds, kind) else []
  {
    if kinds != [] {
      var init, last := kinds[..|kinds| - 1], kinds[|kinds| - 1];
      GroupedKeepsOrder(ds, init, kind);
      OfKindOfSum(Grouped(ds, init), ByType(ds, last), kind);
      OfKindOfOwn(Sorted(ds), last, kind);
    }
  }

  /** Devices of one kind are listed in declared order. */
  lemma OrderedWithinKind(ds: seq<Device>, kind: string)
    ensures OfKind(Ordered(ds), kind) == ByType(ds, kind)
  {
    var kinds := Distinct(LAYER_ORDER + Kinds(Sorted(ds)));
    DistinctHasNoRepeats(LAYER_ORDER + Kinds(Sorted(ds)));
    GroupedKeepsOrder(ds, kinds, kind);
    if kind !in kinds {
      assert forall i :: 0 <= i < |Sorted(ds)| ==> Kinds(Sorted(ds))[i] == Sorted(ds)[i].kind;
      NoneOfKind(Sorted(ds), kind);
    }
  }

  lemma {:induction false} NoneOfKind(ds: seq<Device>, kind: string)
    requires forall i :: 0 <= i < |ds| ==> ds[i].kind != kind
    ensures OfKind(ds, kind) == []
  {
    if ds != [] {
      NoneOfKind(ds[..|ds| - 1], kind);
    }
  }

  /** Devices are listed in the order of their kinds. */
  lemma {:induction false} GroupedFollowsKinds(ds: seq<Device>, kinds: seq<string>, i: nat, j: nat)
    requires i < j < |Grouped(ds, kinds)|
    ensures exists p, q :: 0 <= p <= q < |kinds| &&
                           kinds[p] == Grouped(ds, kinds)[i].kind && kinds[q] == Grouped(ds, kinds)[j].kind
  {
    var n := |kinds|;
    var before, own := Grouped(ds, kinds[..n - 1]), ByType(ds, kinds[n - 1]);
    if j < |before| {
      GroupedFollowsKinds(ds, kinds[..n - 1], i, j);
      var p, q :| 0 <= p <= q < n - 1 && kinds[..n - 1][p] == before[i].kind && kinds[..n - 1][q] == before[j].kind;
      assert kinds[p] == before[i].kind && kinds[q] == before[j].kind;
    } else {
      assert Grouped(ds, kinds)[j] in own && kinds[n - 1] == Grouped(ds, kinds)[j].kind;
      if i < |before| {
        assert before[i] in before;
        GroupedHolds(ds, kinds[..n - 1], before[i]);
        var p :| 0 <= p < n - 1 && kinds[..n - 1][p] == before[i].kind;
        assert kinds[p] == before[i].kind;
      } else {
        assert Grouped(ds, kinds)[i] in own && kinds[n - 1] == Grouped(ds, kinds)[i].kind;
      }
    }
  }

  /** Of two devices of standard kinds, the one whose kind comes first in the standard order is listed first. */
  lemma OrderedFollowsLayers(ds: seq<Device>, i: nat, j: nat, p: nat, q: nat)
    requires i < |Ordered(ds)| && j < |Ordered(ds)| && p < q < |LAYER_ORDER|
    requires Ordered(ds)[i].kind == LAYER_ORDER[p] && Ordered(ds)[j].kind == LAYER_ORDER[q]
    ensures i < j
  {
    LayerOrderHasNoRepeats();
    if i >= j {
      var all := Distinct(LAYER_ORDER + Kinds(Sorted(ds)));
      DistinctHasNoRepeats(LAYER_ORDER + Kinds(Sorted(ds)));
      DistinctStartsWith(LAYER_ORDER, Kinds(Sorted(ds)));
      assert all[p] == LAYER_ORDER[p] && all[q] == LAYER_ORDER[q];
      if j < i {
        GroupedFollowsKinds(ds, all, j, i);
      }
    }
  }

  lemma LayerOrderHasNoRepeats()
    ensures NoRepeats(LAYER_ORDER)
  {
    var lengths := [8, 6, 6, 6, 11, 7, 3, 5];
    assert |LAYER_ORDER| == 8 && forall i :: 0 <= i < 8 ==> |LAYER_ORDER[i]| == lengths[i];
    assert LAYER_ORDER[1][0] == 'r' && LAYER_ORDER[2][1] == 'w' && LAYER_ORDER[3][1] == 'e';
    assert LAYER_ORDER[2][0] == 's' && LAYER_ORDER[3][0] == 's';
  }

  lemma {:induction false} DistinctKeeps(xs: seq<string>)
    requires NoRepeats(xs)
    ensures Distinct(xs) == xs
  {
    if xs != [] {
      DistinctKeeps(xs[..|xs| - 1]);
      assert xs == xs[..|xs| - 1] + [xs[|xs| - 1]];
    }
  }

  /** Different entries at the start stay there. */
  lemma {:induction false} DistinctStartsWith(a: seq<string>, b: seq<string>)
    requires NoRepeats(a)
    ensures a <= Distinct(a + b)
  {
    if b == [] {
      assert a + b == a;
      DistinctKeeps(a);
    } else {
      assert (a + b)[..|a + b| - 1] == a + b[..|b| - 1];
      DistinctStartsWith(a, b[..|b| - 1]);
    }
  }

  // ----- columns -----

  /** Two nodes share a column exactly if they are of one kind. */
  lemma ColumnsTellKinds(ds: seq<Device>, level: Level, a: Node, b: Node)
    requires a in Nodes(ds, level) && b in Nodes(ds, level)
    ensures Column(ds, level, a.kind) == Column(ds, level, b.kind) <==> a.kind == b.kind
  {
    NodeKindIsUsed(ds, level, a);
    NodeKindIsUsed(ds, level, b);
    hide UsedLayers;
  }

  /** The Internet stands in the first column, and only nodes of its kind do. */
  lemma InternetIsFirst(ds: seq<Device>, level: Level, n: Node)
    requires n in Nodes(ds, level)
    ensures Column(ds, level, n.kind) == 0 <==> n.kind == "internet"
  {
    hide UsedLayers;
  }

  lemma NodeKindIsUsed(ds: seq<Device>, level: Level, n: Node)
    requires n in Nodes(ds, level)
    ensures n.kind in UsedLayers(ds, level) || n.kind == "internet" || n.kind == "workstation"
  {
    NodesExactlyWhen(ds, level, n);
    if d :| d in ds && n == Node(d.id, d.kind) {
      KindIsUsed(ds, level, d.kind);
    } else if kind :| IsMissing(ds, level, kind) && n == Node("sample-" + kind, kind) {
      KindIsUsed(ds, level, kind);
    }
  }

  /** Kinds with a device or a sample are in use. */
  lemma KindIsUsed(ds: seq<Device>, level: Level, kind: string)
    requires (exists d :: d in ds && d.kind == kind) || IsMissing(ds, level, kind)
    ensures kind in UsedLayers(ds, level)
  {
    hide Essentials;
    SampleKindsAreMissing(ds, level);
    var samples := SampleKinds(ds, level);
    KeepOnlyAllowed(LAYER_ORDER + samples, PresentKinds(ds) + (set k | k in samples));
    if d :| d in ds && d.kind == kind {
      var i :| 0 <= i < |ds| && ds[i] == d;
      assert Kinds(ds)[i] == kind;
    }
  }

  /** Of two standard kinds in use, the one that comes first in the standard order stands further left. */
  lemma ColumnsFollowLayers(ds: seq<Device>, level: Level, p: nat, q: nat)
    requires p < q < |LAYER_ORDER| && LAYER_ORDER[p] in UsedLayers(ds, level) && LAYER_ORDER[q] in UsedLayers(ds, level)
    ensures Column(ds, level, LAYER_ORDER[p]) < Column(ds, level, LAYER_ORDER[q])
  {
    hide UsedLayers, Layers, IndexIn;
    var i, j := UsedInOrder(ds, level, p, q);
    var used := UsedLayers(ds, level);
    OnlyPlace(used, i);
    OnlyPlace(used, j);
    StandardIsNotInternet(p);
    StandardIsNotInternet(q);
  }

  lemma StandardIsNotInternet(p: nat)
    requires p < |LAYER_ORDER|
    ensures LAYER_ORDER[p] != "internet"
  {
    var heads := "frsswsuo";
    assert LAYER_ORDER[p][0] == heads[p] && heads[p] != 'i' && "internet"[0] == 'i';
  }

  lemma OnlyPlace(xs: seq<string>, i: nat)
    requires NoRepeats(xs) && i < |xs|
    ensures IndexIn(xs, xs[i]) == i
  {
    hide IndexIn;
    var k := IndexIn(xs, xs[i]);
    assert xs[k] == xs[i];
  }

  lemma UsedInOrder(ds: seq<Device>, level: Level, p: nat, q: nat) returns (i: nat, j: nat)
    requires p < q < |LAYER_ORDER| && LAYER_ORDER[p] in UsedLayers(ds, level) && LAYER_ORDER[q] in UsedLayers(ds, level)
    ensures var used := UsedLayers(ds, level);
            NoRepeats(used) && i < j < |used| && used[i] == LAYER_ORDER[p] && used[j] == LAYER_ORDER[q]
  {
    hide Essentials, SampleKinds, Keep, Distinct, NoRepeats;
    var samples := SampleKinds(ds, level);
    var allowed := PresentKinds(ds) + (set k | k in samples);
    var front, more := Keep(LAYER_ORDER, allowed), Keep(samples, allowed) + Kinds(ds);
    KeepOfSum(LAYER_ORDER, samples, allowed);
    assert front + Keep(samples, allowed) + Kinds(ds) == front + more;
    LayerOrderHasNoRepeats();
    UsedIsAllowed(ds, level, LAYER_ORDER[p]);
    UsedIsAllowed(ds, level, LAYER_ORDER[q]);
    i, j := KeepInOrder(LAYER_ORDER, allowed, p, q);
    KeepHasNoRepeats(LAYER_ORDER, allowed);
    DistinctStartsWith(front, more);
    DistinctHasNoRepeats(front + more);
  }

  lemma UsedIsAllowed(ds: seq<Device>, level: Level, kind: string)
    requires kind in UsedLayers(ds, level)
    ensures kind in PresentKinds(ds) + (set k | k in SampleKinds(ds, level))
  {
    hide Essentials, SampleKinds;
    var samples := SampleKinds(ds, level);
    KeepOnlyAllowed(LAYER_ORDER + samples, PresentKinds(ds) + (set k | k in samples));
    if kind in Kinds(ds) {
      var i :| 0 <= i < |ds| && Kinds(ds)[i] == kind;
      assert ds[i] in ds;
    }
  }

  lemma {:induction false} KeepOfSum(a: seq<string>, b: seq<string>, allowed: set<string>)
    ensures Keep(a + b, allowed) == Keep(a, allowed) + Keep(b, allowed)
  {
    if b == [] {
      assert a + b == a;
    } else {
      assert (a + b)[..|a + b| - 1] == a + b[..|b| - 1];
      KeepOfSum(a, b[..|b| - 1], allowed);
    }
  }

  lemma {:induction false} KeepHasNoRepeats(xs: seq<string>, allowed: set<string>)
    requires NoRepeats(xs)
    ensures NoRepeats(Keep(xs, allowed))
  {
    if xs != [] {
      KeepHasNoRepeats(xs[..|xs| - 1], allowed);
      KeepOnlyAllowed(xs[..|xs| - 1], allowed);
      var kept := Keep(xs[..|xs| - 1], allowed);
      forall i | 0 <= i < |kept| ensures kept[i] != xs[|xs| - 1] {
        assert kept[i] in kept;
      }
    }
  }

  /** Entries kept stay in order. */
  lemma {:induction false} KeepInOrder(xs: seq<string>, allowed: set<string>, p: nat, q: nat) returns (i: nat, j: nat)
    requires p < q < |xs| && xs[p] in allowed && xs[q] in allowed
    ensures i < j < |Keep(xs, allowed)| && Keep(xs, allowed)[i] == xs[p] && Keep(xs, allowed)[j] == xs[q]
    decreases |xs|
  {
    var init, last := xs[..|xs| - 1], |xs| - 1;
    if q < last {
      i, j := KeepInOrder(init, allowed, p, q);
    } else {
      var kept := Keep(init, allowed);
      KeepOnlyAllowed(init, allowed);
      assert init[p] == xs[p] && xs[p] in kept;
      i :| 0 <= i < |kept| && kept[i] == xs[p];
      j := |kept|;
    }
  }

  // ----- rows -----

  /** The places before n that hold c. */
  function PlacesOf(cols: seq<nat>, c: nat, n: nat): set<nat>
    requires n <= |cols|
  {
    set k: nat | k < n && cols[k] == c
  }

  /** A node's row is the number of nodes before it in its column. */
  lemma {:induction false} RowCountsColumn(cols: seq<nat>, c: nat, n: nat)
    requires n <= |cols|
    ensures CountIn(cols[..n], c) == |PlacesOf(cols, c, n)|
  {
    if n > 0 {
      RowCountsColumn(cols, c, n - 1);
      assert cols[..n][..n - 1] == cols[..n - 1];
      var before := PlacesOf(cols, c, n - 1);
      assert PlacesOf(cols, c, n) == if cols[n - 1] == c then before + {n - 1} else before;
    }
  }

  /** Where node i stands: its column 280 apart, its row 120 apart. */
  lemma PositionIs(cols: seq<nat>, i: nat)
    requires i < |cols|
    ensures PositionAt(cols, i).x == 280 * cols[i] && PositionAt(cols, i).y == 120 * |PlacesOf(cols, cols[i], i)|
  {
    RowCountsColumn(cols, cols[i], i);
  }
}
