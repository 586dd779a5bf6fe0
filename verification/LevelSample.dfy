/** The sample diagram of a level: real and sample nodes laid out in columns, joined by the template and a backbone. */
module LevelSample {
  import opened Sequences
  import opened Graph
  import opened Topology

  datatype Node = Node(id: string, kind: string)
  datatype Position = Position(x: int, y: int)

  const LAYER_GAP_X := 280
  const DEVICE_GAP_Y := 120

  function Essentials(level: Level): seq<string> {
    match level
    case One => ["firewall", "switch"]
    case Two => ["firewall", "router", "switch", "server"]
    case Three => ["firewall", "router", "switch", "server", "load_balancer", "storage"]
  }

  function SampleId(kind: string): string {
    "sample-" + kind
  }

  // ----- nodes -----

  function Kinds(ds: seq<Device>): seq<string> {
    seq(|ds|, i requires 0 <= i < |ds| => ds[i].kind)
  }

  function PresentKinds(ds: seq<Device>): set<string> {
    set d | d in ds :: d.kind
  }

  /** Essential kinds that no device has. */
  function SampleKinds(ds: seq<Device>, level: Level): seq<string> {
    Missing(Essentials(level), PresentKinds(ds))
  }

  function Missing(kinds: seq<string>, present: set<string>): (r: seq<string>)
    ensures forall k :: k in r <==> k in kinds && k !in present
  {
    if kinds == [] then []
    else
      var last := kinds[|kinds| - 1];
      Missing(kinds[..|kinds| - 1], present) + if last in present then [] else [last]
  }

  /** Devices by kind: the standard layers first, then other kinds as they first occur in declared order. */
  function Ordered(ds: seq<Device>): seq<Device> {
    Grouped(ds, Distinct(LAYER_ORDER + Kinds(Sorted(ds))))
  }

  function Grouped(ds: seq<Device>, kinds: seq<string>): seq<Device> {
    if kinds == [] then [] else Grouped(ds, kinds[..|kinds| - 1]) + ByType(ds, kinds[|kinds| - 1])
  }

  function DeviceNodes(ds: seq<Device>): seq<Node> {
    seq(|ds|, i requires 0 <= i < |ds| => Node(ds[i].id, ds[i].kind))
  }

  function SampleNodes(kinds: seq<string>): seq<Node> {
    seq(|kinds|, i requires 0 <= i < |kinds| => Node(SampleId(kinds[i]), kinds[i]))
  }

  /** The Internet, the devices, a workstation if no device is one, and a sample node for each missing essential. */
  function Nodes(ds: seq<Device>, level: Level): seq<Node> {
    [Node(INTERNET, "internet")] + DeviceNodes(Ordered(ds))
    + (if HasWorkstation(ds) then [] else [Node(WORKSTATION, "workstation")])
    + SampleNodes(SampleKinds(ds, level))
  }

  predicate IsNode(ds: seq<Device>, level: Level, id: string) {
    exists n :: n in Nodes(ds, level) && n.id == id
  }

  // ----- columns and rows -----

  /** Layers in use: standard ones and missing essentials, then the other kinds as the devices are listed. */
  function UsedLayers(ds: seq<Device>, level: Level): seq<string> {
    var samples := SampleKinds(ds, level);
    Distinct(Keep(LAYER_ORDER + samples, PresentKinds(ds) + (set k | k in samples)) + Kinds(ds))
  }

  /** The backbone's layers: those in use, and the workstations in any case. */
  function Layers(ds: seq<Device>, level: Level): seq<string> {
    var used := UsedLayers(ds, level);
    if "workstation" in used then used else used + ["workstation"]
  }

  function IndexIn(xs: seq<string>, x: string): (i: nat)
    requires x in xs
    ensures i < |xs| && xs[i] == x
  {
    if xs[|xs| - 1] == x then |xs| - 1 else IndexIn(xs[..|xs| - 1], x)
  }

  function Column(ds: seq<Device>, level: Level, kind: string): nat {
    if kind == "internet" then 0
    else if kind in UsedLayers(ds, level) then IndexIn(UsedLayers(ds, level), kind) + 1
    else |Layers(ds, level)| + 1
  }

  function Columns(ds: seq<Device>, level: Level): seq<nat> {
    var nodes := Nodes(ds, level);
    seq(|nodes|, i requires 0 <= i < |nodes| => Column(ds, level, nodes[i].kind))
  }

  function CountIn(cols: seq<nat>, c: nat): nat {
    if cols == [] then 0 else CountIn(cols[..|cols| - 1], c) + if cols[|cols| - 1] == c then 1 else 0
  }

  /** Node i is as far down its column as there are nodes before it in that column. */
  function PositionAt(cols: seq<nat>, i: nat): Position
    requires i < |cols|
  {
    Position(cols[i] * LAYER_GAP_X, CountIn(cols[..i], cols[i]) * DEVICE_GAP_Y)
  }

  method PlaceNodes(cols: seq<nat>) returns (positions: seq<Position>)
    ensures |positions| == |cols| && forall i :: 0 <= i < |cols| ==> positions[i] == PositionAt(cols, i)
  {
    positions := [];
    var rowCount: map<nat, nat> := map[];
    for i := 0 to |cols|
      invariant |positions| == i && forall k :: 0 <= k < i ==> positions[k] == PositionAt(cols, k)
      invariant forall c: nat :: CountIn(cols[..i], c) == if c in rowCount then rowCount[c] else 0
    {
      assert cols[..i + 1][..i] == cols[..i];
      var c: nat := cols[i];
      var r: nat := if c in rowCount then rowCount[c] else 0;
      rowCount := rowCount[c := r + 1];
      positions := positions + [Position(c * LAYER_GAP_X, r * DEVICE_GAP_Y)];
    }
  }

  lemma {:induction false} CountGrows(cols: seq<nat>, i: nat, j: nat)
    requires i < j <= |cols|
    ensures CountIn(cols[..i], cols[i]) < CountIn(cols[..j], cols[i])
    decreases j
  {
    assert cols[..j][..j - 1] == cols[..j - 1];
    if i < j - 1 {
      CountGrows(cols, i, j - 1);
    }
  }

  /** No two nodes are placed at the same point, whatever their columns. */
  lemma PositionsDiffer(cols: seq<nat>, i: nat, j: nat)
    requires i < j < |cols|
    ensures PositionAt(cols, i) != PositionAt(cols, j)
  {
    if cols[i] == cols[j] {
      CountGrows(cols, i, j);
    }
  }

  // ----- edges -----

  /** The node ids of a layer; an empty layer has its sample node or the default workstation. */
  function LayerIds(ds: seq<Device>, level: Level, kind: string): (r: seq<string>)
    ensures r != []
  {
    if TypeIds(ds, kind) != [] then TypeIds(ds, kind)
    else if kind in UsedLayers(ds, level) then [SampleId(kind)]
    else [WORKSTATION]
  }

  /** The template without links straight from the Internet to a workstation. */
  function KeptTemplate(edges: seq<Edge>, workstations: seq<string>): (r: seq<Edge>)
    ensures forall e :: e in r <==> e in edges && !(e.source == INTERNET && e.target in workstations)
  {
    if edges == [] then []
    else
      var last := edges[|edges| - 1];
      KeptTemplate(edges[..|edges| - 1], workstations) +
      if last.source == INTERNET && last.target in workstations then [] else [last]
  }

  /** Last node of each layer to the first node of the next. */
  function Backbone(ds: seq<Device>, level: Level, layers: seq<string>): seq<Edge> {
    if |layers| < 2 then []
    else
      var cur, next := LayerIds(ds, level, layers[|layers| - 2]), LayerIds(ds, level, layers[|layers| - 1]);
      Backbone(ds, level, layers[..|layers| - 1]) + [Edge(cur[|cur| - 1], next[0])]
  }

  function Wanted(ds: seq<Device>, level: Level): seq<Edge> {
    KeptTemplate(TemplateEdges(ds, level), LayerIds(ds, level, "workstation"))
    + Backbone(ds, level, Layers(ds, level))
    + [Edge(INTERNET, LayerIds(ds, level, Layers(ds, level)[0])[0])]
  }

  function Key(e: Edge): string {
    e.source + "->" + e.target
  }

  function KeysOf(edges: seq<Edge>): set<string> {
    set e | e in edges :: Key(e)
  }

  /** addEdge for each in turn: no self links, and no key twice. */
  function Added(edges: seq<Edge>): (r: seq<Edge>)
    ensures forall e :: e in r ==> e in edges && e.source != e.target
  {
    if edges == [] then []
    else
      var r, last := Added(edges[..|edges| - 1]), edges[|edges| - 1];
      if last.source == last.target || Key(last) in KeysOf(r) then r else r + [last]
  }

  function SampleEdges(ds: seq<Device>, level: Level): seq<Edge> {
    Added(Wanted(ds, level))
  }

  method AddEdges(edges: seq<Edge>) returns (r: seq<Edge>)
    ensures r == Added(edges)
  {
    r := [];
    var seen: set<string> := {};
    for i := 0 to |edges|
      invariant r == Added(edges[..i]) && seen == KeysOf(r)
    {
      assert edges[..i + 1][..i] == edges[..i];
      var e := edges[i];
      if e.source == e.target || Key(e) in seen {
        continue;
      }
      assert KeysOf(r + [e]) == KeysOf(r) + {Key(e)};
      seen := seen + {Key(e)};
      r := r + [e];
    }
    assert edges[..|edges|] == edges;
  }

  /** The whole builder: nodes with their positions, and edges. */
  method BuildLevelSample(ds: seq<Device>, level: Level)
    returns (nodes: seq<Node>, positions: seq<Position>, edges: seq<Edge>)
    ensures nodes == Nodes(ds, level) && edges == SampleEdges(ds, level)
    ensures |positions| == |nodes|
    ensures forall i :: 0 <= i < |positions| ==> positions[i] == PositionAt(Columns(ds, level), i)
    ensures forall i, j :: 0 <= i < j < |positions| ==> positions[i] != positions[j]
  {
    hide Nodes, Column, TemplateEdges, Layers, KeptTemplate, Added, LayerIds;
    nodes := Nodes(ds, level);
    var cols := Columns(ds, level);
    positions := PlaceNodes(cols);
    forall i, j | 0 <= i < j < |positions| ensures positions[i] != positions[j] {
      PositionsDiffer(cols, i, j);
    }
    var template := BuildLevelTemplate(ds, level);
    var layers := Layers(ds, level);
    var backbone: seq<Edge> := [];
    LayersNotEmpty(ds, level);
    assert layers[..1] == [layers[0]];
    for i := 1 to |layers|
      invariant backbone == Backbone(ds, level, layers[..i])
    {
      assert layers[..i + 1][..i] == layers[..i];
      var cur, next := LayerIds(ds, level, layers[i - 1]), LayerIds(ds, level, layers[i]);
      backbone := backbone + [Edge(cur[|cur| - 1], next[0])];
    }
    assert layers[..|layers|] == layers;
    edges := AddEdges(KeptTemplate(template, LayerIds(ds, level, "workstation")) + backbone
                      + [Edge(INTERNET, LayerIds(ds, level, layers[0])[0])]);
  }

  lemma LayersNotEmpty(ds: seq<Device>, level: Level)
    ensures Layers(ds, level) != [] && "workstation" in Layers(ds, level)
  {
  }

  // ----- edges join existing, different nodes, each pair once -----

  lemma {:induction false} AddedHasNoRepeats(edges: seq<Edge>)
    ensures NoRepeats(Added(edges))
  {
    if edges != [] {
      AddedHasNoRepeats(edges[..|edges| - 1]);
      var r, last := Added(edges[..|edges| - 1]), edges[|edges| - 1];
      if last in r {
        assert Key(last) in KeysOf(r);
      }
    }
  }

  predicate NoArrow(id: string) {
    '>' !in id
  }

  /** The arrow of a key comes right after the source, so equal keys have sources of equal length. */
  lemma ArrowPlace(a: Edge, b: Edge)
    requires NoArrow(b.source) && Key(a) == Key(b)
    ensures |b.source| <= |a.source|
  {
    assert Key(a)[|a.source| + 1] == '>';
    assert forall k :: 0 <= k <= |b.source| ==> Key(b)[k] != '>';
  }

  /** Ids without '>' make keys that tell edges apart. */
  lemma KeyInjective(a: Edge, b: Edge)
    requires NoArrow(a.source) && NoArrow(b.source) && Key(a) == Key(b)
    ensures a == b
  {
    ArrowPlace(a, b);
    ArrowPlace(b, a);
    var s := |a.source|;
    assert a.source == Key(a)[..s] && b.source == Key(b)[..s];
    assert a.target == Key(a)[s + 2..] && b.target == Key(b)[s + 2..];
  }

  /** With such ids nothing but self links and repetitions is dropped. */
  lemma {:induction false} AddedKeepsAll(edges: seq<Edge>, e: Edge)
    requires forall other :: other in edges ==> NoArrow(other.source)
    requires e in edges && e.source != e.target
    ensures e in Added(edges)
  {
    var init, last := edges[..|edges| - 1], edges[|edges| - 1];
    if e in init {
      AddedKeepsAll(init, e);
    } else if Key(last) in KeysOf(Added(init)) {
      var other :| other in Added(init) && Key(other) == Key(last);
      KeyInjective(other, last);
    }
  }

  lemma {:induction false} GroupedHolds(ds: seq<Device>, kinds: seq<string>, d: Device)
    ensures d in Grouped(ds, kinds) <==> d in ds && d.kind in kinds
  {
    if kinds != [] {
      GroupedHolds(ds, kinds[..|kinds| - 1], d);
      ByTypeHolds(ds, kinds[|kinds| - 1], d);
    }
  }

  lemma OrderedHolds(ds: seq<Device>, d: Device)
    requires d in ds
    ensures d in Ordered(ds)
  {
    SortedKeeps(ds);
    var sorted := Sorted(ds);
    hide Sorted, Grouped;
    var i :| 0 <= i < |sorted| && sorted[i] == d;
    assert Kinds(sorted)[i] == d.kind;
    GroupedHolds(ds, Distinct(LAYER_ORDER + Kinds(sorted)), d);
  }

  // ----- each device has one node, and node ids differ -----

  lemma {:induction false} CountOfKind(ds: seq<Device>, kind: string, d: Device)
    ensures multiset(OfKind(ds, kind))[d] == if d.kind == kind then multiset(ds)[d] else 0
  {
    if ds != [] {
      CountOfKind(ds[..|ds| - 1], kind, d);
      assert ds == ds[..|ds| - 1] + [ds[|ds| - 1]];
    }
  }

  lemma CountByType(ds: seq<Device>, kind: string, d: Device)
    ensures multiset(ByType(ds, kind))[d] == if d.kind == kind then multiset(ds)[d] else 0
  {
    hide OfKind, Sorted;
    SortedKeeps(ds);
    CountOfKind(Sorted(ds), kind, d);
  }

  lemma {:induction false} CountInGroups(ds: seq<Device>, kinds: seq<string>, d: Device)
    requires NoRepeats(kinds)
    ensures multiset(Grouped(ds, kinds))[d] == if d.kind in kinds then multiset(ds)[d] else 0
  {
    hide ByType;
    if kinds != [] {
      var init, last := kinds[..|kinds| - 1], kinds[|kinds| - 1];
      CountInGroups(ds, init, d);
      CountByType(ds, last, d);
      assert last !in init;
      assert kinds == init + [last];
    }
  }

  /** Listing by layers neither loses nor repeats a device. */
  lemma OrderedIsPermutation(ds: seq<Device>)
    ensures multiset(Ordered(ds)) == multiset(ds)
  {
    hide Sorted, Grouped, Distinct;
    var kinds := Distinct(LAYER_ORDER + Kinds(Sorted(ds)));
    DistinctHasNoRepeats(LAYER_ORDER + Kinds(Sorted(ds)));
    forall d ensures multiset(Ordered(ds))[d] == multiset(ds)[d] {
      CountInGroups(ds, kinds, d);
      if d in ds {
        KindIsListed(ds, d);
      }
    }
  }

  lemma KindIsListed(ds: seq<Device>, d: Device)
    requires d in ds
    ensures d.kind in Distinct(LAYER_ORDER + Kinds(Sorted(ds)))
  {
    SortedKeeps(ds);
    var sorted := Sorted(ds);
    hide Sorted;
    var i :| 0 <= i < |sorted| && sorted[i] == d;
    assert Kinds(sorted)[i] == d.kind;
  }

  lemma TwicePresent<T>(s: seq<T>, i: nat, j: nat)
    requires i < j < |s| && s[i] == s[j]
    ensures multiset(s)[s[i]] >= 2
  {
    assert s == s[..j] + s[j..];
    assert s[..j][i] in multiset(s[..j]) && s[j..][0] in multiset(s[j..]);
  }

  lemma {:induction false} OncePresent(ds: seq<Device>, d: Device)
    requires DistinctIds(ds)
    ensures multiset(ds)[d] <= 1
  {
    if ds != [] {
      hide DistinctIds;
      var init, last := ds[..|ds| - 1], ds[|ds| - 1];
      DistinctSplit(ds);
      OncePresent(init, d);
      assert ds == init + [last];
      if d == last {
        assert d !in init;
      }
    }
  }

  lemma OrderedIdsDiffer(ds: seq<Device>, i: nat, j: nat)
    requires WellNamed(ds) && i < j < |Ordered(ds)|
    ensures Ordered(ds)[i].id != Ordered(ds)[j].id
  {
    hide Ordered;
    var ordered := Ordered(ds);
    OrderedIsPermutation(ds);
    var a, b := ordered[i], ordered[j];
    assert a in multiset(ordered) && b in multiset(ordered);
    if a.id == b.id {
      SameIdSameDevice(ds, a, b);
      TwicePresent(ordered, i, j);
      OncePresent(ds, a);
    }
  }

  lemma {:induction false} MissingHasNoRepeats(kinds: seq<string>, present: set<string>)
    requires NoRepeats(kinds)
    ensures NoRepeats(Missing(kinds, present))
  {
    if kinds != [] {
      MissingHasNoRepeats(kinds[..|kinds| - 1], present);
    }
  }

  lemma EssentialsHaveNoRepeats(level: Level)
    ensures NoRepeats(Essentials(level))
  {
    assert "firewall"[0] == 'f' && "router"[0] == 'r' && "switch"[1] == 'w' && "server"[1] == 'e';
    assert "load_balancer"[0] == 'l' && "storage"[1] == 't' && "switch"[0] == "server"[0] == "storage"[0] == 's';
  }

  lemma SampleIdsDiffer(ds: seq<Device>, level: Level, i: nat, j: nat)
    requires i < j < |SampleKinds(ds, level)|
    ensures SampleId(SampleKinds(ds, level)[i]) != SampleId(SampleKinds(ds, level)[j])
  {
    EssentialsHaveNoRepeats(level);
    MissingHasNoRepeats(Essentials(level), PresentKinds(ds));
    var a, b := SampleKinds(ds, level)[i], SampleKinds(ds, level)[j];
    hide Missing;
    if SampleId(a) == SampleId(b) {
      SampleIdInjective(a, b);
    }
  }

  lemma SampleIdInjective(a: string, b: string)
    requires SampleId(a) == SampleId(b)
    ensures a == b
  {
    assert SampleId(a)[7..] == a && SampleId(b)[7..] == b;
  }

  /** Every device has its node. */
  lemma DevicesAreNodes(ds: seq<Device>, level: Level, id: string)
    requires id in IdsOf(ds)
    ensures IsNode(ds, level, id)
  {
    hide Ordered, SampleKinds;
    var d :| d in ds && d.id == id;
    OrderedHolds(ds, d);
    var k :| 0 <= k < |Ordered(ds)| && Ordered(ds)[k] == d;
    assert Nodes(ds, level)[1 + k] == Node(id, d.kind);
  }

  lemma OwnNodesExist(ds: seq<Device>, level: Level)
    ensures IsNode(ds, level, INTERNET)
    ensures !HasWorkstation(ds) ==> IsNode(ds, level, WORKSTATION)
  {
    hide Ordered, SampleKinds;
    assert Nodes(ds, level)[0] == Node(INTERNET, "internet");
    if !HasWorkstation(ds) {
      assert Nodes(ds, level)[1 + |Ordered(ds)|] == Node(WORKSTATION, "workstation");
    }
  }

  lemma SamplesAreNodes(ds: seq<Device>, level: Level, kind: string)
    requires kind in SampleKinds(ds, level)
    ensures IsNode(ds, level, SampleId(kind))
  {
    hide Ordered, SampleKinds;
    var kinds := SampleKinds(ds, level);
    var i :| 0 <= i < |kinds| && kinds[i] == kind;
    var n := 1 + |Ordered(ds)| + (if HasWorkstation(ds) then 0 else 1) + i;
    assert Nodes(ds, level)[n] == Node(SampleId(kind), kind);
  }

  lemma UsedLayersHold(ds: seq<Device>, level: Level, kind: string)
    ensures kind in UsedLayers(ds, level) <==> kind in PresentKinds(ds) || kind in SampleKinds(ds, level)
  {
    var samples := SampleKinds(ds, level);
    KeepOnlyAllowed(LAYER_ORDER + samples, PresentKinds(ds) + (set k | k in samples));
    if kind in PresentKinds(ds) {
      var d :| d in ds && d.kind == kind;
      var i :| 0 <= i < |ds| && ds[i] == d;
      assert Kinds(ds)[i] == kind;
    }
    if kind in Kinds(ds) {
      var i :| 0 <= i < |ds| && Kinds(ds)[i] == kind;
      assert ds[i] in ds;
    }
  }

  /** The nodes of a layer exist. */
  lemma LayerIdsAreNodes(ds: seq<Device>, level: Level, kind: string, id: string)
    requires kind in Layers(ds, level) && id in LayerIds(ds, level, kind)
    ensures IsNode(ds, level, id)
  {
    hide Nodes, Sorted, OfKind, UsedLayers, SampleKinds;
    UsedLayersHold(ds, level, kind);
    TypeIdsHold(ds, kind, id);
    if id in TypeIds(ds, kind) {
      DevicesAreNodes(ds, level, id);
    } else if kind in UsedLayers(ds, level) {
      KindHasIds(ds, kind);
      SamplesAreNodes(ds, level, kind);
    } else {
      KindHasIds(ds, "workstation");
      OwnNodesExist(ds, level);
    }
  }

  lemma KindHasIds(ds: seq<Device>, kind: string)
    ensures kind in PresentKinds(ds) <==> TypeIds(ds, kind) != []
    ensures HasWorkstation(ds) <==> "workstation" in PresentKinds(ds)
  {
    if kind in PresentKinds(ds) {
      var d :| d in ds && d.kind == kind;
      TypeIdsHold(ds, kind, d.id);
    }
    if TypeIds(ds, kind) != [] {
      TypeIdsHold(ds, kind, TypeIds(ds, kind)[0]);
    }
  }

  /** An id the template may use: the Internet, a device, or a workstation. */
  predicate OwnId(ds: seq<Device>, id: string) {
    id == INTERNET || id in IdsOf(ds) || id in WorkstationIds(ds)
  }

  lemma TypeIdsAreOwn(ds: seq<Device>, kind: string)
    ensures forall id :: id in TypeIds(ds, kind) ==> id in IdsOf(ds)
    ensures forall id :: id in IdsOf(Rest(ds)) ==> id in IdsOf(ds)
  {
    forall id | id in TypeIds(ds, kind) ensures id in IdsOf(ds) {
      TypeIdsHold(ds, kind, id);
    }
  }

  lemma AllTypeIdsAreOwn(ds: seq<Device>)
    ensures forall kind, id :: id in TypeIds(ds, kind) ==> id in IdsOf(ds)
    ensures forall id :: id in IdsOf(Rest(ds)) ==> id in IdsOf(ds)
  {
    forall kind ensures forall id :: id in TypeIds(ds, kind) ==> id in IdsOf(ds) {
      TypeIdsAreOwn(ds, kind);
    }
    TypeIdsAreOwn(ds, "");
  }

  lemma CoreIsOwn(ds: seq<Device>, level: Level)
    ensures forall id :: id in Core(ds, level) ==> OwnId(ds, id)
    ensures OwnId(ds, AttachPoint(ds, level))
  {
    hide TypeIds, IdsOf, WorkstationIds;
    AllTypeIdsAreOwn(ds);
    var sw, core := TypeIds(ds, "switch"), Core(ds, level);
    assert core[|core| - 1] in core;
    if sw != [] { assert sw[|sw| - 1] in sw; }
  }

  lemma TemplateJoinsOwnIds(ds: seq<Device>, level: Level, e: Edge)
    requires e in TemplateEdges(ds, level)
    ensures OwnId(ds, e.source) && OwnId(ds, e.target)
  {
    hide Core, TypeIds, WorkstationIds, AttachPoint, Chain, Star, Rest, IdsOf;
    CoreIsOwn(ds, level);
    AllTypeIdsAreOwn(ds);
    match level
    case One => ChainEnds([INTERNET] + IdsOf(ds) + WorkstationIds(ds), e);
    case Two =>
      CoreTargetsTwo(ds, e);
    case Three =>
      EdgesOfThree(ds, e);
      SourcesOfThree(ds, e);
  }

  lemma SourcesOfThree(ds: seq<Device>, e: Edge)
    requires e in TemplateEdges(ds, Three)
    ensures OwnId(ds, e.source)
  {
    hide Core, TypeIds, WorkstationIds, AttachPoint, Chain, Star, Rest, IdsOf;
    var attach, servers := AttachPoint(ds, Three), TypeIds(ds, "server");
    var storages, lbs := TypeIds(ds, "storage"), TypeIds(ds, "load_balancer");
    CoreIsOwn(ds, Three);
    AllTypeIdsAreOwn(ds);
    if e in Chain(Core(ds, Three)) {
      ChainEnds(Core(ds, Three), e);
    } else if e in ServerLinks(ds) {
      if lbs != [] && servers != [] {
        if e in Chain([lbs[0]] + servers) {
          ChainEnds([lbs[0]] + servers, e);
          assert lbs[0] in lbs;
        }
      } else {
        StarEnds(attach, servers, e);
      }
    } else if e in Star(FirstOr(TypeIds(ds, "firewall"), attach), TypeIds(ds, "website")) {
      StarEnds(FirstOr(TypeIds(ds, "firewall"), attach), TypeIds(ds, "website"), e);
    } else if e in Star(FirstOr(servers, attach), storages) {
      StarEnds(FirstOr(servers, attach), storages, e);
    } else if e in Chain([FirstOr(storages, attach)] + TypeIds(ds, "ups")) {
      ChainEnds([FirstOr(storages, attach)] + TypeIds(ds, "ups"), e);
    } else if e in Star(attach, IdsOf(Rest(ds))) {
      StarEnds(attach, IdsOf(Rest(ds)), e);
    } else {
      StarEnds(attach, WorkstationIds(ds), e);
    }
  }

  lemma OwnIdsAreNodes(ds: seq<Device>, level: Level, id: string)
    requires OwnId(ds, id)
    ensures IsNode(ds, level, id)
  {
    hide Nodes, Sorted;
    OwnNodesExist(ds, level);
    if id in IdsOf(ds) {
      DevicesAreNodes(ds, level, id);
    } else if HasWorkstation(ds) && id != INTERNET {
      TypeIdsAreOwn(ds, "workstation");
    }
  }

  lemma {:induction false} BackboneJoinsLayers(ds: seq<Device>, level: Level, layers: seq<string>, e: Edge)
    requires e in Backbone(ds, level, layers)
    ensures exists i :: 1 <= i < |layers| && BackboneEdge(ds, level, layers, i) == e
  {
    hide LayerIds;
    if e in Backbone(ds, level, layers[..|layers| - 1]) {
      BackboneJoinsLayers(ds, level, layers[..|layers| - 1], e);
      var i :| 1 <= i < |layers| - 1 && BackboneEdge(ds, level, layers[..|layers| - 1], i) == e;
      assert BackboneEdge(ds, level, layers, i) == e;
    } else {
      assert BackboneEdge(ds, level, layers, |layers| - 1) == e;
    }
  }

  function BackboneEdge(ds: seq<Device>, level: Level, layers: seq<string>, i: nat): Edge
    requires 1 <= i < |layers|
  {
    var cur := LayerIds(ds, level, layers[i - 1]);
    Edge(cur[|cur| - 1], LayerIds(ds, level, layers[i])[0])
  }

  lemma {:induction false} BackboneHasAll(ds: seq<Device>, level: Level, layers: seq<string>, i: nat)
    requires 1 <= i < |layers|
    ensures BackboneEdge(ds, level, layers, i) in Backbone(ds, level, layers)
    decreases |layers|
  {
    hide LayerIds, TypeIds, UsedLayers;
    if i < |layers| - 1 {
      var init := layers[..|layers| - 1];
      BackboneHasAll(ds, level, init, i);
      assert init[i - 1] == layers[i - 1] && init[i] == layers[i];
    }
  }

  lemma WantedJoinsNodes(ds: seq<Device>, level: Level, e: Edge)
    requires e in Wanted(ds, level)
    ensures IsNode(ds, level, e.source) && IsNode(ds, level, e.target)
  {
    hide Nodes, TemplateEdges, Layers, LayerIds, Backbone, IsNode;
    var layers := Layers(ds, level);
    LayersNotEmpty(ds, level);
    if e in TemplateEdges(ds, level) {
      TemplateJoinsOwnIds(ds, level, e);
      OwnIdsAreNodes(ds, level, e.source);
      OwnIdsAreNodes(ds, level, e.target);
    } else if e in Backbone(ds, level, layers) {
      BackboneJoinsLayers(ds, level, layers, e);
      var i :| 1 <= i < |layers| && BackboneEdge(ds, level, layers, i) == e;
      LayerIdsAreNodes(ds, level, layers[i - 1], e.source);
      LayerIdsAreNodes(ds, level, layers[i], e.target);
    } else {
      OwnNodesExist(ds, level);
      LayerIdsAreNodes(ds, level, layers[0], e.target);
    }
  }

  /** Every edge of the sample joins two existing, different nodes, and no pair is joined twice. */
  lemma SampleEdgesAreSound(ds: seq<Device>, level: Level)
    ensures NoRepeats(SampleEdges(ds, level))
    ensures forall e :: e in SampleEdges(ds, level) ==>
              e.source != e.target && IsNode(ds, level, e.source) && IsNode(ds, level, e.target)
  {
    hide Wanted, IsNode, Nodes;
    AddedHasNoRepeats(Wanted(ds, level));
    forall e | e in SampleEdges(ds, level) ensures IsNode(ds, level, e.source) && IsNode(ds, level, e.target) {
      WantedJoinsNodes(ds, level, e);
    }
  }
}
