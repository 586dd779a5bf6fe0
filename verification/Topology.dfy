/** Network diagrams of a system profile: device nodes, and the template of links for each level. */
module Topology {
  import opened Graph

  datatype Device = Device(id: string, kind: string, order: int)

  datatype Level = One | Two | Three

  const INTERNET := "__internet__"
  const WORKSTATION := "__workstation__"

  const LAYER_ORDER: seq<string> :=
    ["firewall", "router", "switch", "server", "workstation", "storage", "ups", "other"]

  /** Kinds that the level-2 and level-3 templates place themselves. */
  const PLACED: set<string> :=
    {"firewall", "router", "switch", "server", "load_balancer", "storage", "ups", "website"}

  // ----- devices -----

  /** A stable sort by declared order. */
  function Insert(sorted: seq<Device>, d: Device): seq<Device> {
    if sorted == [] || sorted[|sorted| - 1].order <= d.order then sorted + [d]
    else Insert(sorted[..|sorted| - 1], d) + [sorted[|sorted| - 1]]
  }

  function Sorted(ds: seq<Device>): seq<Device> {
    if ds == [] then [] else Insert(Sorted(ds[..|ds| - 1]), ds[|ds| - 1])
  }

  function OfKind(ds: seq<Device>, kind: string): (r: seq<Device>)
    ensures forall d :: d in r <==> d in ds && d.kind == kind
  {
    if ds == [] then []
    else
      var last := ds[|ds| - 1];
      OfKind(ds[..|ds| - 1], kind) + if last.kind == kind then [last] else []
  }

  function IdsOf(ds: seq<Device>): (r: seq<string>)
    ensures |r| == |ds| && forall i :: 0 <= i < |ds| ==> r[i] == ds[i].id
    ensures forall x :: x in r <==> exists d :: d in ds && d.id == x
  {
    seq(|ds|, i requires 0 <= i < |ds| => ds[i].id)
  }

  /** The devices of one kind in declared order: the builder's byType map. */
  function ByType(ds: seq<Device>, kind: string): (r: seq<Device>) {
    OfKind(Sorted(ds), kind)
  }

  function TypeIds(ds: seq<Device>, kind: string): seq<string> {
    IdsOf(ByType(ds, kind))
  }

  function Rest(ds: seq<Device>): (r: seq<Device>)
    ensures forall d :: d in r <==> d in ds && d.kind !in PLACED
  {
    if ds == [] then []
    else
      var last := ds[|ds| - 1];
      Rest(ds[..|ds| - 1]) + if last.kind !in PLACED then [last] else []
  }

  predicate HasWorkstation(ds: seq<Device>) {
    exists d :: d in ds && d.kind == "workstation"
  }

  /** The default workstation stands in when no device is one. */
  function WorkstationIds(ds: seq<Device>): seq<string> {
    if HasWorkstation(ds) then TypeIds(ds, "workstation") else [WORKSTATION]
  }

  /** Ids are present, different from each other and from the diagram's own nodes. */
  ghost predicate WellNamed(ds: seq<Device>) {
    && (forall d :: d in ds ==> d.id != "" && d.id != INTERNET && d.id != WORKSTATION)
    && DistinctIds(ds)
  }

  ghost predicate DistinctIds(ds: seq<Device>) {
    forall i, j :: 0 <= i < j < |ds| ==> ds[i].id != ds[j].id
  }

  lemma {:induction false} InsertKeeps(sorted: seq<Device>, d: Device)
    ensures multiset(Insert(sorted, d)) == multiset(sorted) + multiset{d}
  {
    if sorted == [] || sorted[|sorted| - 1].order <= d.order {
    } else {
      var init, last := sorted[..|sorted| - 1], sorted[|sorted| - 1];
      InsertKeeps(init, d);
      assert sorted == init + [last];
    }
  }

  lemma {:induction false} SortedKeeps(ds: seq<Device>)
    ensures multiset(Sorted(ds)) == multiset(ds)
    ensures forall d :: d in Sorted(ds) <==> d in ds
  {
    if ds != [] {
      var init, last := ds[..|ds| - 1], ds[|ds| - 1];
      SortedKeeps(init);
      InsertKeeps(Sorted(init), last);
      assert ds == init + [last];
    }
    assert forall d :: d in Sorted(ds) <==> d in multiset(Sorted(ds));
  }

  predicate InOrder(ds: seq<Device>) {
    forall i, j :: 0 <= i < j < |ds| ==> ds[i].order <= ds[j].order
  }

  function WithOrder(ds: seq<Device>, order: int): seq<Device> {
    if ds == [] then []
    else WithOrder(ds[..|ds| - 1], order) + if ds[|ds| - 1].order == order then [ds[|ds| - 1]] else []
  }

  lemma {:induction false} InsertInOrder(sorted: seq<Device>, d: Device)
    requires InOrder(sorted)
    ensures InOrder(Insert(sorted, d))
  {
    if sorted != [] && sorted[|sorted| - 1].order > d.order {
      var init, last := sorted[..|sorted| - 1], sorted[|sorted| - 1];
      InsertInOrder(init, d);
      InsertKeeps(init, d);
      var r := Insert(init, d);
      forall i | 0 <= i < |r| ensures r[i].order <= last.order {
        assert r[i] in multiset(r);
        assert r[i] in init || r[i] == d;
      }
    }
  }

  lemma {:induction false} InsertIsStable(sorted: seq<Device>, d: Device, order: int)
    ensures WithOrder(Insert(sorted, d), order) == WithOrder(sorted, order) + if d.order == order then [d] else []
  {
    if sorted == [] || sorted[|sorted| - 1].order <= d.order {
      assert (sorted + [d])[..|sorted|] == sorted;
    } else {
      var init, last := sorted[..|sorted| - 1], sorted[|sorted| - 1];
      InsertIsStable(init, d, order);
      var r := Insert(init, d);
      assert (r + [last])[..|r|] == r;
    }
  }

  /** The sort is a stable sort: in order, and devices of equal order stay as declared. */
  lemma {:induction false} SortedIsStable(ds: seq<Device>, order: int)
    ensures InOrder(Sorted(ds)) && WithOrder(Sorted(ds), order) == WithOrder(ds, order)
  {
    if ds != [] {
      var s, last := Sorted(ds[..|ds| - 1]), ds[|ds| - 1];
      SortedIsStable(ds[..|ds| - 1], order);
      InsertInOrder(s, last);
      InsertIsStable(s, last, order);
    }
  }

  /** A device is in its kind's list, and only there. */
  lemma ByTypeHolds(ds: seq<Device>, kind: string, d: Device)
    ensures d in ByType(ds, kind) <==> d in ds && d.kind == kind
  {
    SortedKeeps(ds);
  }

  lemma TypeIdsHold(ds: seq<Device>, kind: string, id: string)
    ensures id in TypeIds(ds, kind) <==> exists d :: d in ds && d.kind == kind && d.id == id
  {
    forall d ensures d in ByType(ds, kind) <==> d in ds && d.kind == kind {
      ByTypeHolds(ds, kind, d);
    }
  }

  // ----- links -----

  /** One link, unless an end is missing or both are the same. */
  function Link(source: string, target: string): seq<Edge> {
    if source != "" && target != "" && source != target then [Edge(source, target)] else []
  }

  /** Link each element to the next. */
  function Chain(ids: seq<string>): seq<Edge> {
    if |ids| < 2 then [] else Chain(ids[..|ids| - 1]) + Link(ids[|ids| - 2], ids[|ids| - 1])
  }

  /** Link one element to all of the others. */
  function Star(source: string, ids: seq<string>): seq<Edge> {
    if ids == [] then [] else Star(source, ids[..|ids| - 1]) + Link(source, ids[|ids| - 1])
  }

  function FirstOnly(ids: seq<string>): seq<string> {
    if ids == [] then [] else ids[..1]
  }

  function FirstOr(ids: seq<string>, other: string): string {
    if ids == [] then other else ids[0]
  }

  function LastOr(ids: seq<string>, other: string): string {
    if ids == [] then other else ids[|ids| - 1]
  }

  /** The core from the Internet through firewalls, routers and switches: one of each at level 2, all at level 3. */
  function Core(ds: seq<Device>, level: Level): (core: seq<string>)
    ensures core != [] && core[0] == INTERNET
  {
    var fw, rt, sw := TypeIds(ds, "firewall"), TypeIds(ds, "router"), TypeIds(ds, "switch");
    if level == Two then [INTERNET] + FirstOnly(fw) + FirstOnly(rt) + FirstOnly(sw) else [INTERNET] + fw + rt + sw
  }

  /** Where the rest is attached: the last switch, or the end of the core. */
  function AttachPoint(ds: seq<Device>, level: Level): string {
    LastOr(TypeIds(ds, "switch"), LastOr(Core(ds, level), INTERNET))
  }

  function Hub(ds: seq<Device>): seq<string> {
    TypeIds(ds, "server") + TypeIds(ds, "website") + TypeIds(ds, "storage") + TypeIds(ds, "ups") + IdsOf(Rest(ds))
  }

  function ServerLinks(ds: seq<Device>): seq<Edge> {
    var attach, lbs, servers := AttachPoint(ds, Three), TypeIds(ds, "load_balancer"), TypeIds(ds, "server");
    if lbs != [] && servers != [] then Link(attach, lbs[0]) + Chain([lbs[0]] + servers) else Star(attach, servers)
  }

  function TemplateEdges(ds: seq<Device>, level: Level): seq<Edge> {
    match level
    case One => Chain([INTERNET] + IdsOf(ds) + WorkstationIds(ds))
    case Two =>
      var attach := AttachPoint(ds, Two);
      Chain(Core(ds, Two)) + Star(attach, Hub(ds)) + Star(attach, WorkstationIds(ds))
    case Three =>
      var attach := AttachPoint(ds, Three);
      Chain(Core(ds, Three)) + ServerLinks(ds)
      + Star(FirstOr(TypeIds(ds, "firewall"), attach), TypeIds(ds, "website"))
      + Star(FirstOr(TypeIds(ds, "server"), attach), TypeIds(ds, "storage"))
      + Chain([FirstOr(TypeIds(ds, "storage"), attach)] + TypeIds(ds, "ups"))
      + Star(attach, IdsOf(Rest(ds))) + Star(attach, WorkstationIds(ds))
  }

  method ChainLinks(ids: seq<string>) returns (edges: seq<Edge>)
    ensures edges == Chain(ids)
  {
    edges := [];
    if ids == [] {
      return;
    }
    assert ids[..1] == [ids[0]];
    for i := 1 to |ids|
      invariant edges == Chain(ids[..i])
    {
      assert ids[..i + 1][..i] == ids[..i];
      edges := edges + Link(ids[i - 1], ids[i]);
    }
    assert ids[..|ids|] == ids;
  }

  method StarLinks(source: string, ids: seq<string>) returns (edges: seq<Edge>)
    ensures edges == Star(source, ids)
  {
    edges := [];
    for i := 0 to |ids|
      invariant edges == Star(source, ids[..i])
    {
      assert ids[..i + 1][..i] == ids[..i];
      edges := edges + Link(source, ids[i]);
    }
    assert ids[..|ids|] == ids;
  }

  /** buildLevelTemplate, edge by edge. */
  method BuildLevelTemplate(ds: seq<Device>, level: Level) returns (edges: seq<Edge>)
    ensures edges == TemplateEdges(ds, level)
  {
    hide Chain, Star, Sorted, OfKind, Rest;
    if level == One {
      edges := ChainLinks([INTERNET] + IdsOf(ds) + WorkstationIds(ds));
      return;
    }
    var attach := AttachPoint(ds, level);
    edges := ChainLinks(Core(ds, level));
    if level == Two {
      var hub := StarLinks(attach, Hub(ds));
      var ws := StarLinks(attach, WorkstationIds(ds));
      return edges + hub + ws;
    }
    var lbs, servers := TypeIds(ds, "load_balancer"), TypeIds(ds, "server");
    var serverLinks;
    if lbs != [] && servers != [] {
      serverLinks := ChainLinks([lbs[0]] + servers);
      serverLinks := Link(attach, lbs[0]) + serverLinks;
    } else {
      serverLinks := StarLinks(attach, servers);
    }
    var sites := StarLinks(FirstOr(TypeIds(ds, "firewall"), attach), TypeIds(ds, "website"));
    var disks := StarLinks(FirstOr(servers, attach), TypeIds(ds, "storage"));
    var power := ChainLinks([FirstOr(TypeIds(ds, "storage"), attach)] + TypeIds(ds, "ups"));
    var rest := StarLinks(attach, IdsOf(Rest(ds)));
    var ws := StarLinks(attach, WorkstationIds(ds));
    edges := edges + serverLinks + sites + disks + power + rest + ws;
  }

  // ----- reachability of chains and stars -----

  predicate Contains(edges: seq<Edge>, part: seq<Edge>) {
    forall e :: e in part ==> e in edges
  }

  lemma LinkedByMember(edges: seq<Edge>, a: string, b: string)
    ensures Edge(a, b) in edges <==> Linked(edges, a, b)
  {
    if Linked(edges, a, b) {
      var i :| 0 <= i < |edges| && edges[i].source == a && edges[i].target == b;
      assert edges[i] == Edge(a, b);
    }
  }

  lemma LinkReaches(edges: seq<Edge>, root: string, a: string, b: string)
    requires Contains(edges, Link(a, b)) && a != "" && b != "" && Reaches(edges, root, a)
    ensures Reaches(edges, root, b)
  {
    if a != b {
      assert Edge(a, b) in Link(a, b);
      LinkedByMember(edges, a, b);
      OneStep(edges, root, a, b);
    }
  }

  /** If the head of a chain is reached, so is every element. */
  lemma {:induction false} ChainReaches(edges: seq<Edge>, root: string, ids: seq<string>, i: nat)
    requires Contains(edges, Chain(ids)) && i < |ids| && "" !in ids && Reaches(edges, root, ids[0])
    ensures Reaches(edges, root, ids[i])
    decreases |ids|
  {
    if i < |ids| - 1 {
      ChainReaches(edges, root, ids[..|ids| - 1], i);
    } else if i > 0 {
      ChainReaches(edges, root, ids[..|ids| - 1], i - 1);
      LinkReaches(edges, root, ids[i - 1], ids[i]);
    }
  }

  lemma {:induction false} StarReaches(edges: seq<Edge>, root: string, source: string, ids: seq<string>, i: nat)
    requires Contains(edges, Star(source, ids)) && i < |ids| && source != "" && "" !in ids
    requires Reaches(edges, root, source)
    ensures Reaches(edges, root, ids[i])
    decreases |ids|
  {
    if i < |ids| - 1 {
      StarReaches(edges, root, source, ids[..|ids| - 1], i);
    } else {
      LinkReaches(edges, root, source, ids[i]);
    }
  }

  lemma {:induction false} ChainEnds(ids: seq<string>, e: Edge)
    requires e in Chain(ids)
    ensures e.source in ids && e.target in ids[1..] && e.source != e.target
  {
    if e in Chain(ids[..|ids| - 1]) {
      ChainEnds(ids[..|ids| - 1], e);
      assert ids[..|ids| - 1][1..] == ids[1..|ids| - 1];
    } else {
      assert e.target == ids[1..][|ids| - 2];
    }
  }

  lemma {:induction false} StarEnds(source: string, ids: seq<string>, e: Edge)
    requires e in Star(source, ids)
    ensures e.source == source && e.target in ids && e.source != e.target
  {
    if e in Star(source, ids[..|ids| - 1]) {
      StarEnds(source, ids[..|ids| - 1], e);
    }
  }

  // ----- what each template reaches -----

  lemma NamesArePresent(ds: seq<Device>, kind: string)
    requires WellNamed(ds)
    ensures "" !in TypeIds(ds, kind) && "" !in IdsOf(Rest(ds)) && "" !in WorkstationIds(ds) && "" !in IdsOf(ds)
  {
    TypeIdsHold(ds, kind, "");
    TypeIdsHold(ds, "workstation", "");
  }

  /** Level 1: everything is on one chain, so every device and every workstation is reached. */
  lemma LevelOneReachesAll(ds: seq<Device>, id: string)
    requires WellNamed(ds)
    requires id in IdsOf(ds) || id in WorkstationIds(ds)
    ensures Reaches(TemplateEdges(ds, One), INTERNET, id)
  {
    var ids, edges := [INTERNET] + IdsOf(ds) + WorkstationIds(ds), TemplateEdges(ds, One);
    NamesArePresent(ds, "workstation");
    hide Chain, WellNamed, WorkstationIds, IdsOf;
    assert Contains(edges, Chain(ids));
    assert id in ids;
    var i :| 0 <= i < |ids| && ids[i] == id;
    ReachesItself(edges, INTERNET);
    ChainReaches(edges, INTERNET, ids, i);
  }

  lemma CorePresent(ds: seq<Device>, level: Level)
    requires WellNamed(ds)
    ensures "" !in Core(ds, level)
    ensures AttachPoint(ds, level) != ""
  {
    NamesArePresent(ds, "firewall");
    NamesArePresent(ds, "router");
    NamesArePresent(ds, "switch");
    assert LastOr(Core(ds, level), INTERNET) in Core(ds, level);
  }

  lemma CoreReached(ds: seq<Device>, level: Level, edges: seq<Edge>, id: string)
    requires WellNamed(ds) && Contains(edges, Chain(Core(ds, level))) && id in Core(ds, level)
    ensures Reaches(edges, INTERNET, id)
  {
    hide Core, Chain;
    CorePresent(ds, level);
    ReachesItself(edges, INTERNET);
    var i :| 0 <= i < |Core(ds, level)| && Core(ds, level)[i] == id;
    ChainReaches(edges, INTERNET, Core(ds, level), i);
  }

  lemma StarReached(edges: seq<Edge>, source: string, ids: seq<string>, id: string)
    requires Contains(edges, Star(source, ids)) && source != "" && "" !in ids && id in ids
    requires Reaches(edges, INTERNET, source)
    ensures Reaches(edges, INTERNET, id)
  {
    var i :| 0 <= i < |ids| && ids[i] == id;
    StarReaches(edges, INTERNET, source, ids, i);
  }

  /** The attach point is in the core, except at level 2 with more than one switch. */
  lemma AttachInCore(ds: seq<Device>, level: Level)
    requires level == Two ==> |TypeIds(ds, "switch")| <= 1
    ensures AttachPoint(ds, level) in Core(ds, level)
  {
    hide TypeIds;
    var sw, core := TypeIds(ds, "switch"), Core(ds, level);
    if sw != [] {
      assert sw[|sw| - 1] in sw;
      assert level == Two ==> FirstOnly(sw)[0] == sw[|sw| - 1];
    } else {
      assert core[|core| - 1] in core;
    }
  }

  lemma NeverTargetNeverReached(edges: seq<Edge>, root: string, x: string)
    requires x != root && forall e :: e in edges ==> e.target != x
    ensures !Reaches(edges, root, x)
  {
    forall path | IsPath(edges, path) && path[0] == root ensures path[|path| - 1] != x {
      var n := |path|;
      if n > 1 {
        assert Linked(edges, path[n - 2], path[n - 2 + 1]);
        LinkedByMember(edges, path[n - 2], path[n - 1]);
      }
    }
  }

  lemma SameIdSameDevice(ds: seq<Device>, a: Device, b: Device)
    requires WellNamed(ds) && a in ds && b in ds && a.id == b.id
    ensures a == b
  {
  }

  /** Where a device's id occurs: in its own kind's list and no other, among the rest exactly if not placed. */
  lemma OwnListOnly(ds: seq<Device>, d: Device, kind: string)
    requires WellNamed(ds) && d in ds
    ensures d.id in TypeIds(ds, kind) <==> kind == d.kind
    ensures d.id in IdsOf(Rest(ds)) <==> d.kind !in PLACED
    ensures d.id in WorkstationIds(ds) <==> d.kind == "workstation"
  {
    hide Sorted, TypeIds;
    forall other | other in ds && other.id == d.id ensures other == d { SameIdSameDevice(ds, other, d); }
    TypeIdsHold(ds, kind, d.id);
    TypeIdsHold(ds, "workstation", d.id);
  }

  // ----- level 2 -----

  predicate InCoreKinds(kind: string) {
    kind == "firewall" || kind == "router" || kind == "switch"
  }

  lemma CoreTargetsTwo(ds: seq<Device>, e: Edge)
    requires e in TemplateEdges(ds, Two)
    ensures e in Chain(Core(ds, Two)) ==> e.source in Core(ds, Two) && e.target in Core(ds, Two)[1..]
    ensures e !in Chain(Core(ds, Two)) ==>
            e.source == AttachPoint(ds, Two) && (e.target in Hub(ds) || e.target in WorkstationIds(ds))
  {
    hide Core, Hub, WorkstationIds, AttachPoint, Chain, Star;
    var attach := AttachPoint(ds, Two);
    if e in Chain(Core(ds, Two)) {
      ChainEnds(Core(ds, Two), e);
    } else if e in Star(attach, Hub(ds)) {
      StarEnds(attach, Hub(ds), e);
    } else {
      StarEnds(attach, WorkstationIds(ds), e);
    }
  }

  /** A device in the level-2 core is the first of its kind, and one of the three core kinds. */
  lemma CoreOfTwo(ds: seq<Device>, d: Device)
    requires WellNamed(ds) && d in ds
    ensures d.id in Core(ds, Two) <==> InCoreKinds(d.kind) && d.id == FirstOr(TypeIds(ds, d.kind), "")
    ensures InCoreKinds(d.kind) ==> d.id !in Hub(ds) && d.id !in WorkstationIds(ds)
    ensures d.kind == "load_balancer" ==> d.id !in Hub(ds) && d.id !in WorkstationIds(ds)
    ensures !InCoreKinds(d.kind) && d.kind != "load_balancer" ==> d.id in Hub(ds)
  {
    hide TypeIds, WorkstationIds, Rest;
    OwnListOnly(ds, d, "firewall");
    OwnListOnly(ds, d, "router");
    OwnListOnly(ds, d, "switch");
    OwnListOnly(ds, d, "server");
    OwnListOnly(ds, d, "website");
    OwnListOnly(ds, d, "storage");
    OwnListOnly(ds, d, "ups");
  }

  /**
   * Level 2: of firewalls, routers and switches only the first of each is reached; load balancers
   * never are; and everything else is reached exactly when there is at most one switch, because
   * devices hang on the last switch while only the first is linked to the core.
   */
  lemma LevelTwoReachesExactly(ds: seq<Device>, d: Device)
    requires WellNamed(ds) && d in ds
    ensures Reaches(TemplateEdges(ds, Two), INTERNET, d.id) <==>
            if InCoreKinds(d.kind) then d.id == FirstOr(TypeIds(ds, d.kind), "")
            else d.kind != "load_balancer" && |TypeIds(ds, "switch")| <= 1
  {
    hide Core, Hub, TypeIds, WorkstationIds, AttachPoint, Chain, Star;
    var edges := TemplateEdges(ds, Two);
    CoreOfTwo(ds, d);
    if d.id in Core(ds, Two) {
      CoreReached(ds, Two, edges, d.id);
    } else if InCoreKinds(d.kind) || d.kind == "load_balancer" {
      forall e | e in edges ensures e.target != d.id { CoreTargetsTwo(ds, e); }
      NeverTargetNeverReached(edges, INTERNET, d.id);
    } else if |TypeIds(ds, "switch")| <= 1 {
      AttachInCore(ds, Two);
      CorePresent(ds, Two);
      HubPresent(ds);
      CoreReached(ds, Two, edges, AttachPoint(ds, Two));
      StarReached(edges, AttachPoint(ds, Two), Hub(ds), d.id);
    } else {
      CoreIsClosedTwo(ds);
      var s := set x | x in Core(ds, Two);
      if Reaches(edges, INTERNET, d.id) {
        InternetInCore(ds);
        ClosedHoldsReached(edges, s, INTERNET, d.id);
      }
    }
  }

  lemma InternetInCore(ds: seq<Device>)
    ensures INTERNET in Core(ds, Two)
  {
  }

  lemma HubPresent(ds: seq<Device>)
    requires WellNamed(ds)
    ensures "" !in Hub(ds)
  {
    NamesArePresent(ds, "server");
    NamesArePresent(ds, "website");
    NamesArePresent(ds, "storage");
    NamesArePresent(ds, "ups");
  }

  /** With several switches the attach point is outside the core, so no edge leaves the core. */
  lemma CoreIsClosedTwo(ds: seq<Device>)
    requires WellNamed(ds) && |TypeIds(ds, "switch")| > 1
    ensures Closed(TemplateEdges(ds, Two), set x | x in Core(ds, Two))
  {
    hide Hub, Core, WorkstationIds, Chain, Star;
    var edges := TemplateEdges(ds, Two);
    LastSwitchOutside(ds);
    forall i | 0 <= i < |edges| && edges[i].source in Core(ds, Two) ensures edges[i].target in Core(ds, Two) {
      CoreTargetsTwo(ds, edges[i]);
    }
  }

  lemma LastSwitchOutside(ds: seq<Device>)
    requires WellNamed(ds) && |TypeIds(ds, "switch")| > 1
    ensures AttachPoint(ds, Two) !in Core(ds, Two)
  {
    var sw := TypeIds(ds, "switch");
    var d := ByType(ds, "switch")[|sw| - 1];
    assert d in ByType(ds, "switch") && d.id == sw[|sw| - 1];
    ByTypeHolds(ds, "switch", d);
    CoreOfTwo(ds, d);
    TypeIdsDistinct(ds, "switch");
  }

  lemma DistinctAppend(ds: seq<Device>, d: Device)
    requires DistinctIds(ds) && forall other :: other in ds ==> other.id != d.id
    ensures DistinctIds(ds + [d])
  {
  }

  lemma DistinctSplit(ds: seq<Device>)
    requires ds != [] && DistinctIds(ds)
    ensures DistinctIds(ds[..|ds| - 1]) && forall d :: d in ds[..|ds| - 1] ==> d.id != ds[|ds| - 1].id
  {
  }

  lemma {:induction false} DistinctInKind(ds: seq<Device>, kind: string)
    requires DistinctIds(ds)
    ensures DistinctIds(OfKind(ds, kind))
  {
    if ds != [] {
      hide DistinctIds;
      DistinctSplit(ds);
      DistinctInKind(ds[..|ds| - 1], kind);
      DistinctAppend(OfKind(ds[..|ds| - 1], kind), ds[|ds| - 1]);
      assert OfKind(ds[..|ds| - 1], kind) + [] == OfKind(ds[..|ds| - 1], kind);
    } else {
      assert OfKind(ds, kind) == [];
    }
  }

  lemma {:induction false} DistinctAfterSort(ds: seq<Device>)
    requires DistinctIds(ds)
    ensures DistinctIds(Sorted(ds))
  {
    if ds != [] {
      hide DistinctIds, Insert;
      var init, last := ds[..|ds| - 1], ds[|ds| - 1];
      DistinctSplit(ds);
      DistinctAfterSort(init);
      SortedKeeps(init);
      DistinctAfterInsert(Sorted(init), last);
    }
  }

  lemma {:induction false} DistinctAfterInsert(sorted: seq<Device>, d: Device)
    requires DistinctIds(sorted) && forall other :: other in sorted ==> other.id != d.id
    ensures DistinctIds(Insert(sorted, d))
  {
    hide DistinctIds;
    if sorted == [] || sorted[|sorted| - 1].order <= d.order {
      DistinctAppend(sorted, d);
    } else {
      var init, last := sorted[..|sorted| - 1], sorted[|sorted| - 1];
      DistinctSplit(sorted);
      DistinctAfterInsert(init, d);
      InsertKeeps(init, d);
      forall other | other in Insert(init, d) ensures other.id != last.id {
        assert other in multiset(Insert(init, d));
        assert other in init || other == d;
      }
      DistinctAppend(Insert(init, d), last);
    }
  }

  lemma TypeIdsDistinct(ds: seq<Device>, kind: string)
    requires WellNamed(ds)
    ensures var r := TypeIds(ds, kind); forall a, b :: 0 <= a < b < |r| ==> r[a] != r[b]
  {
    hide Sorted, OfKind;
    DistinctAfterSort(ds);
    DistinctInKind(Sorted(ds), kind);
  }

  // ----- level 3 -----

  /** The only devices that level 3 leaves out: load balancers after the first, and all of them without a server. */
  predicate LeftOut(ds: seq<Device>, d: Device) {
    d.kind == "load_balancer" && (TypeIds(ds, "server") == [] || d.id != FirstOr(TypeIds(ds, "load_balancer"), ""))
  }

  /** Every target of a level-3 link. */
  function TargetsThree(ds: seq<Device>): seq<string> {
    Core(ds, Three)[1..] + TypeIds(ds, "server") + TypeIds(ds, "website") + TypeIds(ds, "storage") + TypeIds(ds, "ups")
    + IdsOf(Rest(ds)) + WorkstationIds(ds)
    + if TypeIds(ds, "server") != [] then FirstOnly(TypeIds(ds, "load_balancer")) else []
  }

  lemma EdgesOfThree(ds: seq<Device>, e: Edge)
    requires e in TemplateEdges(ds, Three)
    ensures e.target in TargetsThree(ds)
  {
    hide Core, TypeIds, WorkstationIds, AttachPoint, Chain, Star, Rest, IdsOf;
    var attach, servers := AttachPoint(ds, Three), TypeIds(ds, "server");
    var storages := TypeIds(ds, "storage");
    if e in Chain(Core(ds, Three)) {
      ChainEnds(Core(ds, Three), e);
    } else if e in ServerLinks(ds) {
      ServerTargets(ds, e);
    } else if e in Star(FirstOr(TypeIds(ds, "firewall"), attach), TypeIds(ds, "website")) {
      StarEnds(FirstOr(TypeIds(ds, "firewall"), attach), TypeIds(ds, "website"), e);
    } else if e in Star(FirstOr(servers, attach), storages) {
      StarEnds(FirstOr(servers, attach), storages, e);
    } else if e in Chain([FirstOr(storages, attach)] + TypeIds(ds, "ups")) {
      ChainEnds([FirstOr(storages, attach)] + TypeIds(ds, "ups"), e);
      assert ([FirstOr(storages, attach)] + TypeIds(ds, "ups"))[1..] == TypeIds(ds, "ups");
    } else if e in Star(attach, IdsOf(Rest(ds))) {
      StarEnds(attach, IdsOf(Rest(ds)), e);
    } else {
      StarEnds(attach, WorkstationIds(ds), e);
    }
  }

  lemma ServerTargets(ds: seq<Device>, e: Edge)
    requires e in ServerLinks(ds)
    ensures e.target in TypeIds(ds, "server") ||
            (TypeIds(ds, "server") != [] && TypeIds(ds, "load_balancer") != [] &&
                e.target == TypeIds(ds, "load_balancer")[0])
  {
    hide TypeIds, Chain, Star;
    var lbs, servers := TypeIds(ds, "load_balancer"), TypeIds(ds, "server");
    if lbs != [] && servers != [] {
      if e in Chain([lbs[0]] + servers) {
        ChainEnds([lbs[0]] + servers, e);
        assert ([lbs[0]] + servers)[1..] == servers;
      }
    } else {
      StarEnds(AttachPoint(ds, Three), servers, e);
    }
  }

  lemma LeftOutNeverTargeted(ds: seq<Device>, d: Device)
    requires WellNamed(ds) && d in ds && LeftOut(ds, d)
    ensures d.id !in TargetsThree(ds)
  {
    hide TypeIds, WorkstationIds, Rest;
    OwnListOnly(ds, d, "firewall");
    OwnListOnly(ds, d, "router");
    OwnListOnly(ds, d, "switch");
    OwnListOnly(ds, d, "server");
    OwnListOnly(ds, d, "website");
    OwnListOnly(ds, d, "storage");
    OwnListOnly(ds, d, "ups");
  }

  lemma AttachReached(ds: seq<Device>)
    requires WellNamed(ds)
    ensures Reaches(TemplateEdges(ds, Three), INTERNET, AttachPoint(ds, Three)) && AttachPoint(ds, Three) != ""
  {
    hide Core, TypeIds, Chain, Star, ServerLinks;
    AttachInCore(ds, Three);
    CorePresent(ds, Three);
    CoreReached(ds, Three, TemplateEdges(ds, Three), AttachPoint(ds, Three));
  }

  /** The parts of the level-3 template are all in it. */
  lemma PartsOfThree(ds: seq<Device>)
    ensures var edges, attach := TemplateEdges(ds, Three), AttachPoint(ds, Three);
            && Contains(edges, Chain(Core(ds, Three))) && Contains(edges, ServerLinks(ds))
            && Contains(edges, Star(FirstOr(TypeIds(ds, "firewall"), attach), TypeIds(ds, "website")))
            && Contains(edges, Star(FirstOr(TypeIds(ds, "server"), attach), TypeIds(ds, "storage")))
            && Contains(edges, Chain([FirstOr(TypeIds(ds, "storage"), attach)] + TypeIds(ds, "ups")))
            && Contains(edges, Star(attach, IdsOf(Rest(ds)))) && Contains(edges, Star(attach, WorkstationIds(ds)))
  {
    hide Core, TypeIds, Chain, Star, ServerLinks, AttachPoint, WorkstationIds, Rest, IdsOf;
  }

  lemma ServersReached(ds: seq<Device>)
    requires WellNamed(ds)
    ensures forall id :: id in TypeIds(ds, "server") ==> Reaches(TemplateEdges(ds, Three), INTERNET, id)
    ensures TypeIds(ds, "server") != [] && TypeIds(ds, "load_balancer") != [] ==>
            Reaches(TemplateEdges(ds, Three), INTERNET, FirstOr(TypeIds(ds, "load_balancer"), ""))
  {
    hide TemplateEdges, TypeIds, AttachPoint, WellNamed, Core, Rest, WorkstationIds;
    PartsOfThree(ds);
    AttachReached(ds);
    NamesArePresent(ds, "server");
    NamesArePresent(ds, "load_balancer");
    ServerLinksReach(TemplateEdges(ds, Three), ds);
  }

  lemma ServerLinksReach(edges: seq<Edge>, ds: seq<Device>)
    requires Contains(edges, ServerLinks(ds)) && AttachPoint(ds, Three) != "" &&
        Reaches(edges, INTERNET, AttachPoint(ds, Three))
    requires "" !in TypeIds(ds, "server") && "" !in TypeIds(ds, "load_balancer")
    ensures forall id :: id in TypeIds(ds, "server") ==> Reaches(edges, INTERNET, id)
    ensures TypeIds(ds, "server") != [] && TypeIds(ds, "load_balancer") != [] ==>
            Reaches(edges, INTERNET, FirstOr(TypeIds(ds, "load_balancer"), ""))
  {
    hide TypeIds, AttachPoint, Chain, Star, Link;
    var attach, lbs, servers := AttachPoint(ds, Three), TypeIds(ds, "load_balancer"), TypeIds(ds, "server");
    if lbs != [] && servers != [] {
      LinkReaches(edges, INTERNET, attach, lbs[0]);
      ChainAfterHead(edges, lbs[0], servers);
    } else {
      forall id | id in servers ensures Reaches(edges, INTERNET, id) {
        StarReached(edges, attach, servers, id);
      }
    }
  }

  lemma ChainAfterHead(edges: seq<Edge>, head: string, ids: seq<string>)
    requires Contains(edges, Chain([head] + ids)) && head != "" && "" !in ids && Reaches(edges, INTERNET, head)
    ensures forall id :: id in ids ==> Reaches(edges, INTERNET, id)
  {
    forall id | id in ids ensures Reaches(edges, INTERNET, id) {
      var i :| 0 <= i < |ids| && ids[i] == id;
      ChainReaches(edges, INTERNET, [head] + ids, i + 1);
    }
  }

  lemma StoragesReached(ds: seq<Device>)
    requires WellNamed(ds)
    ensures forall id :: id in TypeIds(ds, "storage") ==> Reaches(TemplateEdges(ds, Three), INTERNET, id)
    ensures forall id :: id in TypeIds(ds, "ups") ==> Reaches(TemplateEdges(ds, Three), INTERNET, id)
  {
    hide TemplateEdges, TypeIds, AttachPoint, WellNamed, Core, Rest, WorkstationIds, Chain, Star, ServerLinks;
    var edges, attach := TemplateEdges(ds, Three), AttachPoint(ds, Three);
    var servers, storages := TypeIds(ds, "server"), TypeIds(ds, "storage");
    PartsOfThree(ds);
    AttachReached(ds);
    ServersReached(ds);
    NamesArePresent(ds, "server");
    NamesArePresent(ds, "storage");
    NamesArePresent(ds, "ups");
    assert servers != [] ==> servers[0] in servers;
    forall id | id in storages ensures Reaches(edges, INTERNET, id) {
      StarReached(edges, FirstOr(servers, attach), storages, id);
    }
    assert storages != [] ==> storages[0] in storages;
    ChainAfterHead(edges, FirstOr(storages, attach), TypeIds(ds, "ups"));
  }

  lemma SitesAndRestReached(ds: seq<Device>)
    requires WellNamed(ds)
    ensures forall id :: id in TypeIds(ds, "website") || id in IdsOf(Rest(ds)) || id in WorkstationIds(ds) ==>
                         Reaches(TemplateEdges(ds, Three), INTERNET, id)
  {
    hide TemplateEdges, TypeIds, Chain, Star, AttachPoint, WorkstationIds, Rest, IdsOf;
    var edges, attach := TemplateEdges(ds, Three), AttachPoint(ds, Three);
    var fw, sites := TypeIds(ds, "firewall"), TypeIds(ds, "website");
    PartsOfThree(ds);
    AttachReached(ds);
    NamesArePresent(ds, "website");
    NamesArePresent(ds, "firewall");
    if fw != [] {
      assert fw[0] in Core(ds, Three) by { assert fw[0] in fw; }
      CoreReached(ds, Three, edges, fw[0]);
      assert fw[0] in fw;
    }
    forall id | id in sites ensures Reaches(edges, INTERNET, id) {
      StarReached(edges, FirstOr(fw, attach), sites, id);
    }
    forall id | id in IdsOf(Rest(ds)) ensures Reaches(edges, INTERNET, id) {
      StarReached(edges, attach, IdsOf(Rest(ds)), id);
    }
    forall id | id in WorkstationIds(ds) ensures Reaches(edges, INTERNET, id) {
      StarReached(edges, attach, WorkstationIds(ds), id);
    }
  }

  lemma LeftOutIsUnreached(ds: seq<Device>, d: Device)
    requires WellNamed(ds) && d in ds && LeftOut(ds, d)
    ensures !Reaches(TemplateEdges(ds, Three), INTERNET, d.id)
  {
    hide TemplateEdges, TargetsThree, LeftOut, Reaches;
    LeftOutNeverTargeted(ds, d);
    forall e | e in TemplateEdges(ds, Three) ensures e.target != d.id { EdgesOfThree(ds, e); }
    NeverTargetNeverReached(TemplateEdges(ds, Three), INTERNET, d.id);
  }

  lemma CoreKindReached(ds: seq<Device>, d: Device)
    requires WellNamed(ds) && d in ds && InCoreKinds(d.kind)
    ensures Reaches(TemplateEdges(ds, Three), INTERNET, d.id)
  {
    hide TemplateEdges, TypeIds, Reaches, WellNamed;
    OwnListOnly(ds, d, d.kind);
    PartsOfThree(ds);
    CoreReached(ds, Three, TemplateEdges(ds, Three), d.id);
  }

  lemma OtherKindReached(ds: seq<Device>, d: Device)
    requires WellNamed(ds) && d in ds && !LeftOut(ds, d) && !InCoreKinds(d.kind)
    ensures Reaches(TemplateEdges(ds, Three), INTERNET, d.id)
  {
    hide TemplateEdges, TypeIds, WorkstationIds, Rest, IdsOf, Reaches, WellNamed;
    OwnListOnly(ds, d, d.kind);
    SitesAndRestReached(ds);
    ServersReached(ds);
    StoragesReached(ds);
  }

  /**
   * Level 3: a device is reached from the Internet exactly unless it is a load balancer after the
   * first, or any load balancer when there is no server; every workstation node is reached.
   */
  lemma LevelThreeReachesExactly(ds: seq<Device>, d: Device)
    requires WellNamed(ds) && d in ds
    ensures Reaches(TemplateEdges(ds, Three), INTERNET, d.id) <==> !LeftOut(ds, d)
    ensures forall id :: id in WorkstationIds(ds) ==> Reaches(TemplateEdges(ds, Three), INTERNET, id)
  {
    hide TemplateEdges, TypeIds, WorkstationIds, Rest, IdsOf, Reaches, LeftOut, WellNamed;
    SitesAndRestReached(ds);
    if LeftOut(ds, d) {
      LeftOutIsUnreached(ds, d);
    } else if InCoreKinds(d.kind) {
      CoreKindReached(ds, d);
    } else {
      OtherKindReached(ds, d);
    }
  }
}
