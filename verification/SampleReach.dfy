/** Which sample diagrams are connected from the Internet, and that the canvas takes them over unchanged. */
module SampleReach {
  import opened Sequences
  import opened Graph
  import opened Topology
  import opened LevelSample

  /** Device ids are usable: well named, without '>', and not those of sample nodes. */
  ghost predicate Usable(ds: seq<Device>) {
    && WellNamed(ds)
    && forall d :: d in ds ==> NoArrow(d.id) && forall level, kind :: kind in Essentials(level) ==>
        d.id != SampleId(kind)
  }

  /** No two nodes of a sample have the same id. */
  lemma NodeIdsDiffer(ds: seq<Device>, level: Level, i: nat, j: nat)
    requires Usable(ds) && i < j < |Nodes(ds, level)|
    ensures Nodes(ds, level)[i].id != Nodes(ds, level)[j].id
  {
    hide Nodes, Ordered, SampleKinds, Usable, NoSampleId, HasWorkstation, WellNamed;
    assert Usable(ds) ==> WellNamed(ds) by { UsableIsWellNamed(ds); }
    var m, w := |Ordered(ds)|, if HasWorkstation(ds) then 0 else 1;
    var a := IdAt(ds, level, i);
    var b := IdAt(ds, level, j);
    assert WORKSTATION[2] != INTERNET[2];
    if 1 <= i && j <= m {
      OrderedIdsDiffer(ds, i - 1, j - 1);
    } else if i > m + w {
      SampleIdsDiffer(ds, level, i - 1 - m - w, j - 1 - m - w);
    }
  }

  lemma UsableIsWellNamed(ds: seq<Device>)
    ensures Usable(ds) ==> WellNamed(ds)
  {
  }

  /** Where the id of a node comes from. */
  lemma IdAt(ds: seq<Device>, level: Level, i: nat) returns (id: string)
    requires Usable(ds) && i < |Nodes(ds, level)|
    ensures id == Nodes(ds, level)[i].id
    ensures var m, w := |Ordered(ds)|, if HasWorkstation(ds) then 0 else 1;
            && |Nodes(ds, level)| == 1 + m + w + |SampleKinds(ds, level)|
            && (i == 0 ==> id == INTERNET)
            && (1 <= i <= m ==> id == Ordered(ds)[i - 1].id && NoSampleId(level, id)
                                && id != INTERNET && id != WORKSTATION)
            && (w == 1 && i == m + 1 ==> id == WORKSTATION)
            && (i > m + w ==> id == SampleId(SampleKinds(ds, level)[i - 1 - m - w]) && !NoSampleId(level, id)
                              && id != INTERNET && id != WORKSTATION)
  {
    hide Ordered, SampleKinds, WellNamed;
    id := Nodes(ds, level)[i].id;
    var m, w := |Ordered(ds)|, if HasWorkstation(ds) then 0 else 1;
    if 1 <= i <= m {
      var d := Ordered(ds)[i - 1];
      OrderedIsPermutation(ds);
      assert d in multiset(Ordered(ds)) && d in ds;
      DeviceIdIsOwn(ds, level, d);
    } else if i > m + w {
      var kind := SampleKinds(ds, level)[i - 1 - m - w];
      assert kind in SampleKinds(ds, level);
      SampleKindIsEssential(ds, level, kind);
      EssentialNames(level, kind);
    }
  }

  predicate NoSampleId(level: Level, id: string) {
    forall kind :: kind in Essentials(level) ==> id != SampleId(kind)
  }

  lemma DeviceIdIsOwn(ds: seq<Device>, level: Level, d: Device)
    requires Usable(ds) && d in ds
    ensures d.id != INTERNET && d.id != WORKSTATION && NoSampleId(level, d.id)
  {
    hide Essentials, SampleId;
  }

  lemma SampleKindIsEssential(ds: seq<Device>, level: Level, kind: string)
    requires kind in SampleKinds(ds, level)
    ensures kind in Essentials(level)
  {
  }

  lemma EssentialNames(level: Level, kind: string)
    requires kind in Essentials(level)
    ensures NoArrow(SampleId(kind)) && kind != "workstation" && SampleId(kind) != WORKSTATION &&
        SampleId(kind) != INTERNET
  {
    assert SampleId(kind)[0] == 's' && WORKSTATION[0] == '_' && INTERNET[0] == '_';
  }

  lemma LayersWithoutDevices(ds: seq<Device>, level: Level, kind: string)
    requires kind in Layers(ds, level) && TypeIds(ds, kind) == []
    ensures kind in UsedLayers(ds, level) ==> kind in Essentials(level)
    ensures kind !in UsedLayers(ds, level) ==> kind == "workstation"
  {
    hide TypeIds;
    UsedLayersHold(ds, level, kind);
    KindHasIds(ds, kind);
  }

  /** The workstation layer is what the template calls workstations. */
  lemma WorkstationLayer(ds: seq<Device>, level: Level)
    ensures LayerIds(ds, level, "workstation") == WorkstationIds(ds)
  {
    hide TypeIds, UsedLayers;
    KindHasIds(ds, "workstation");
    LayersNotEmpty(ds, level);
    if TypeIds(ds, "workstation") == [] && "workstation" in UsedLayers(ds, level) {
      LayersWithoutDevices(ds, level, "workstation");
      EssentialNames(level, "workstation");
    }
  }

  /** Layer ids have no arrow either. */
  lemma LayerNames(ds: seq<Device>, level: Level, kind: string, id: string)
    requires Usable(ds) && kind in Layers(ds, level) && id in LayerIds(ds, level, kind)
    ensures NoArrow(id) && id != ""
  {
    hide TypeIds, UsedLayers, Layers;
    TypeIdsHold(ds, kind, id);
    if TypeIds(ds, kind) == [] {
      LayersWithoutDevices(ds, level, kind);
      if kind in UsedLayers(ds, level) {
        EssentialNames(level, kind);
      }
    }
  }

  lemma OwnIdNames(ds: seq<Device>, id: string)
    requires Usable(ds) && OwnId(ds, id)
    ensures NoArrow(id) && id != ""
  {
    TypeIdsHold(ds, "workstation", id);
  }

  lemma WantedSourceNames(ds: seq<Device>, level: Level, e: Edge)
    requires Usable(ds) && e in Wanted(ds, level)
    ensures NoArrow(e.source)
  {
    hide TemplateEdges, Layers, LayerIds, Backbone, OwnId;
    var layers := Layers(ds, level);
    LayersNotEmpty(ds, level);
    if e in TemplateEdges(ds, level) {
      TemplateJoinsOwnIds(ds, level, e);
      OwnIdNames(ds, e.source);
    } else if e in Backbone(ds, level, layers) {
      BackboneJoinsLayers(ds, level, layers, e);
      var i :| 1 <= i < |layers| && BackboneEdge(ds, level, layers, i) == e;
      LayerNames(ds, level, layers[i - 1], e.source);
    } else {
      assert NoArrow(INTERNET);
    }
  }

  /** Nothing wanted is lost: each wanted edge between different nodes is in the sample. */
  lemma WantedIsKept(ds: seq<Device>, level: Level, e: Edge)
    requires Usable(ds) && e in Wanted(ds, level) && e.source != e.target
    ensures e in SampleEdges(ds, level)
  {
    hide Wanted;
    forall other | other in Wanted(ds, level) ensures NoArrow(other.source) {
      WantedSourceNames(ds, level, other);
    }
    AddedKeepsAll(Wanted(ds, level), e);
  }

  lemma SampleStep(ds: seq<Device>, level: Level, a: string, b: string)
    requires Usable(ds) && Edge(a, b) in Wanted(ds, level) && Reaches(SampleEdges(ds, level), INTERNET, a)
    ensures Reaches(SampleEdges(ds, level), INTERNET, b)
  {
    hide Wanted, SampleEdges;
    if a != b {
      WantedIsKept(ds, level, Edge(a, b));
      LinkedByMember(SampleEdges(ds, level), a, b);
      OneStep(SampleEdges(ds, level), INTERNET, a, b);
    }
  }

  // ----- the backbone -----

  /** The first node of a layer is reached when the last of the layer before is; that of the first layer always. */
  lemma BackboneStep(ds: seq<Device>, level: Level, i: nat)
    requires Usable(ds) && i < |Layers(ds, level)|
    requires i > 0 ==> var cur := LayerIds(ds, level, Layers(ds, level)[i - 1]);
                       Reaches(SampleEdges(ds, level), INTERNET, cur[|cur| - 1])
    ensures Reaches(SampleEdges(ds, level), INTERNET, LayerIds(ds, level, Layers(ds, level)[i])[0])
  {
    hide TemplateEdges, Layers, LayerIds, SampleEdges;
    var layers := Layers(ds, level);
    if i == 0 {
      ReachesItself(SampleEdges(ds, level), INTERNET);
      SampleStep(ds, level, INTERNET, LayerIds(ds, level, layers[0])[0]);
    } else {
      BackboneHasAll(ds, level, layers, i);
      var e := BackboneEdge(ds, level, layers, i);
      SampleStep(ds, level, e.source, e.target);
    }
  }

  // ----- what the template contributes -----

  /** A template link is dropped only straight from the Internet to a workstation. */
  lemma TemplateStep(ds: seq<Device>, level: Level, a: string, b: string)
    requires Usable(ds) && Edge(a, b) in TemplateEdges(ds, level) && !(a == INTERNET && b in WorkstationIds(ds))
    requires Reaches(SampleEdges(ds, level), INTERNET, a)
    ensures Reaches(SampleEdges(ds, level), INTERNET, b)
  {
    hide TemplateEdges, Layers, LayerIds, SampleEdges, Backbone, WorkstationIds;
    WorkstationLayer(ds, level);
    assert Edge(a, b) in KeptTemplate(TemplateEdges(ds, level), LayerIds(ds, level, "workstation"));
    SampleStep(ds, level, a, b);
  }

  /** A template path into a node takes a dropped link only if it comes straight from the Internet to a workstation. */
  ghost predicate TakesKeptLinks(ds: seq<Device>, path: seq<string>) {
    forall i :: 1 <= i < |path| ==> !(path[i - 1] == INTERNET && path[i] in WorkstationIds(ds))
  }

  /** Along a template path that takes no dropped link, the sample reaches the same node. */
  lemma {:induction false} PathTransfers(ds: seq<Device>, level: Level, path: seq<string>)
    requires Usable(ds) && IsPath(TemplateEdges(ds, level), path) && path[0] == INTERNET && TakesKeptLinks(ds, path)
    ensures Reaches(SampleEdges(ds, level), INTERNET, path[|path| - 1])
  {
    hide TemplateEdges, SampleEdges, WorkstationIds, Usable, Reaches, Linked;
    var n := |path|;
    if n == 1 {
      ReachesItself(SampleEdges(ds, level), INTERNET);
    } else {
      PathBefore(TemplateEdges(ds, level), path);
      PathTransfers(ds, level, path[..n - 1]);
      LinkedByMember(TemplateEdges(ds, level), path[n - 2], path[n - 1]);
      TemplateStep(ds, level, path[n - 2], path[n - 1]);
    }
  }

  lemma OthersAreNoWorkstations(ds: seq<Device>)
    requires WellNamed(ds)
    ensures INTERNET !in WorkstationIds(ds)
    ensures forall kind, id :: kind != "workstation" && id in TypeIds(ds, kind) ==> id !in WorkstationIds(ds)
  {
    hide TypeIds, WorkstationIds, WellNamed;
    forall kind, id | kind != "workstation" && id in TypeIds(ds, kind) ensures id !in WorkstationIds(ds) {
      TypeIdsHold(ds, kind, id);
      var d :| d in ds && d.kind == kind && d.id == id;
      OwnListOnly(ds, d, kind);
    }
    InternetIsNoWorkstation(ds);
  }

  lemma InternetIsNoWorkstation(ds: seq<Device>)
    requires WellNamed(ds)
    ensures INTERNET !in WorkstationIds(ds)
  {
    TypeIdsHold(ds, "workstation", INTERNET);
    assert WORKSTATION[2] != INTERNET[2];
  }

  lemma CoreHasNoWorkstation(ds: seq<Device>, level: Level)
    requires WellNamed(ds)
    ensures forall id :: id in Core(ds, level) ==> id !in WorkstationIds(ds)
    ensures AttachPoint(ds, level) !in WorkstationIds(ds)
  {
    hide TypeIds, WorkstationIds, WellNamed;
    OthersAreNoWorkstations(ds);
    var sw, core := TypeIds(ds, "switch"), Core(ds, level);
    assert core[|core| - 1] in core;
    if sw != [] { assert sw[|sw| - 1] in sw; }
  }

  /** At levels 2 and 3 workstations have no outgoing links, and incoming ones only from the attach point. */
  lemma WorkstationLinks(ds: seq<Device>, level: Level, e: Edge)
    requires WellNamed(ds) && level != One && e in TemplateEdges(ds, level)
    ensures e.source !in WorkstationIds(ds)
    ensures e.target in WorkstationIds(ds) ==> e.source == AttachPoint(ds, level)
  {
    hide Core, Hub, TypeIds, WorkstationIds, AttachPoint, Chain, Star, WellNamed, TemplateEdges;
    CoreHasNoWorkstation(ds, level);
    if level == Two {
      CoreTargetsTwo(ds, e);
      CoreTail(ds, level);
    } else {
      WorkstationLinksThree(ds, e);
    }
  }

  lemma CoreTail(ds: seq<Device>, level: Level)
    ensures forall id :: id in Core(ds, level)[1..] ==> id in Core(ds, level)
  {
    hide Core;
  }

  lemma WorkstationLinksThree(ds: seq<Device>, e: Edge)
    requires WellNamed(ds) && e in TemplateEdges(ds, Three)
    ensures e.source !in WorkstationIds(ds)
    ensures e.target in WorkstationIds(ds) ==> e.source == AttachPoint(ds, Three)
  {
    hide Core, TypeIds, WorkstationIds, AttachPoint, Chain, Star, Rest, IdsOf, WellNamed;
    var attach, servers := AttachPoint(ds, Three), TypeIds(ds, "server");
    var storages, lbs, fw := TypeIds(ds, "storage"), TypeIds(ds, "load_balancer"), TypeIds(ds, "firewall");
    CoreHasNoWorkstation(ds, Three);
    OthersAreNoWorkstations(ds);
    CoreTail(ds, Three);
    if e in Chain(Core(ds, Three)) {
      ChainEnds(Core(ds, Three), e);
    } else if e in ServerLinks(ds) {
      ServerTargets(ds, e);
      ServerSources(ds, e);
    } else if e in Star(FirstOr(fw, attach), TypeIds(ds, "website")) {
      StarEnds(FirstOr(fw, attach), TypeIds(ds, "website"), e);
    } else if e in Star(FirstOr(servers, attach), storages) {
      StarEnds(FirstOr(servers, attach), storages, e);
    } else if e in Chain([FirstOr(storages, attach)] + TypeIds(ds, "ups")) {
      ChainEnds([FirstOr(storages, attach)] + TypeIds(ds, "ups"), e);
      assert ([FirstOr(storages, attach)] + TypeIds(ds, "ups"))[1..] == TypeIds(ds, "ups");
    } else if e in Star(attach, IdsOf(Rest(ds))) {
      StarEnds(attach, IdsOf(Rest(ds)), e);
    } else {
      StarEnds(attach, WorkstationIds(ds), e);
    }
  }

  lemma ServerSources(ds: seq<Device>, e: Edge)
    requires e in ServerLinks(ds)
    ensures e.source == AttachPoint(ds, Three) || e.source in TypeIds(ds, "server") ||
        e.source in TypeIds(ds, "load_balancer")
  {
    hide TypeIds, Chain, Star;
    var lbs, servers := TypeIds(ds, "load_balancer"), TypeIds(ds, "server");
    if lbs != [] && servers != [] {
      if e in Chain([lbs[0]] + servers) {
        ChainEnds([lbs[0]] + servers, e);
      }
    } else {
      StarEnds(AttachPoint(ds, Three), servers, e);
    }
  }

  /** Hence what the template reaches the sample reaches too, workstations only if they do not hang on the Internet. */
  lemma ReachTransfers(ds: seq<Device>, level: Level, id: string)
    requires Usable(ds) && level != One && Reaches(TemplateEdges(ds, level), INTERNET, id)
    requires id in WorkstationIds(ds) ==> AttachPoint(ds, level) != INTERNET
    ensures Reaches(SampleEdges(ds, level), INTERNET, id)
  {
    hide TemplateEdges, SampleEdges, WorkstationIds, WellNamed, AttachPoint, Linked;
    var edges := TemplateEdges(ds, level);
    var path :| IsPath(edges, path) && path[0] == INTERNET && path[|path| - 1] == id;
    forall i | 1 <= i < |path| ensures !(path[i - 1] == INTERNET && path[i] in WorkstationIds(ds)) {
      assert Linked(edges, path[i - 1], path[i - 1 + 1]);
      LinkedByMember(edges, path[i - 1], path[i]);
      WorkstationLinks(ds, level, Edge(path[i - 1], path[i]));
      if i < |path| - 1 {
        assert Linked(edges, path[i], path[i + 1]);
        LinkedByMember(edges, path[i], path[i + 1]);
        WorkstationLinks(ds, level, Edge(path[i], path[i + 1]));
      }
    }
    PathTransfers(ds, level, path);
  }

  // ----- level 1 -----

  function ChainOfOne(ds: seq<Device>): seq<string> {
    [INTERNET] + IdsOf(ds) + WorkstationIds(ds)
  }

  lemma {:induction false} ChainHas(ids: seq<string>, k: nat)
    requires 1 <= k < |ids| && ids[k - 1] != ids[k] && "" !in ids
    ensures Edge(ids[k - 1], ids[k]) in Chain(ids)
    decreases |ids|
  {
    if k < |ids| - 1 {
      ChainHas(ids[..|ids| - 1], k);
    }
  }

  lemma ChainOfOneNames(ds: seq<Device>)
    requires WellNamed(ds)
    ensures "" !in ChainOfOne(ds) && INTERNET !in ChainOfOne(ds)[1..] && |ChainOfOne(ds)| > 1 + |ds|
  {
    hide WorkstationIds, TypeIds;
    NamesArePresent(ds, "workstation");
    InternetIsNoWorkstation(ds);
    KindHasIds(ds, "workstation");
    assert WorkstationIds(ds) != [] by { WorkstationLayer(ds, One); }
    assert ChainOfOne(ds)[1..] == IdsOf(ds) + WorkstationIds(ds);
  }

  /** What comes later on the chain is reached; no link after the first is dropped. */
  lemma {:induction false} ChainForward(ds: seq<Device>, j: nat, k: nat)
    requires Usable(ds) && 1 <= j <= k < |ChainOfOne(ds)| && Reaches(SampleEdges(ds, One), INTERNET, ChainOfOne(ds)[j])
    ensures Reaches(SampleEdges(ds, One), INTERNET, ChainOfOne(ds)[k])
    decreases k
  {
    hide Chain, ChainOfOne, SampleEdges, Reaches, WellNamed, WorkstationIds;
    if j < k {
      var ids := ChainOfOne(ds);
      ChainForward(ds, j, k - 1);
      ChainOfOneNames(ds);
      assert ids[k - 1] == ids[1..][k - 2];
      if ids[k - 1] != ids[k] {
        ChainHas(ids, k);
        assert Edge(ids[k - 1], ids[k]) in TemplateEdges(ds, One) by { OneIsChain(ds); }
        TemplateStep(ds, One, ids[k - 1], ids[k]);
      }
    }
  }

  lemma OneIsChain(ds: seq<Device>)
    ensures TemplateEdges(ds, One) == Chain(ChainOfOne(ds))
  {
  }

  /**
   * One reached device makes all reached: the chain leads on to the workstations, which stand on it
   * a second time at the end, so it comes round to the first device even if that is a workstation.
   */
  lemma OwnReachesOwn(ds: seq<Device>, known: string, id: string)
    requires Usable(ds) && known in IdsOf(ds) && id in IdsOf(ds) && Reaches(SampleEdges(ds, One), INTERNET, known)
    ensures Reaches(SampleEdges(ds, One), INTERNET, id)
  {
    hide Chain, SampleEdges, Reaches, WellNamed, WorkstationIds, IdsOf;
    var ids := ChainOfOne(ds);
    var a :| 0 <= a < |ds| && ds[a].id == known;
    var b :| 0 <= b < |ds| && ds[b].id == id;
    assert ids[1 + a] == known && ids[1 + b] == id && ids[1] == ds[0].id;
    ChainOfOneNames(ds);
    if ds[0].id in WorkstationIds(ds) {
      var w :| 0 <= w < |WorkstationIds(ds)| && WorkstationIds(ds)[w] == ds[0].id;
      assert ids[1 + |ds| + w] == ds[0].id;
      ChainForward(ds, 1 + a, 1 + |ds| + w);
    } else {
      ReachesItself(SampleEdges(ds, One), INTERNET);
      assert ids[0] == INTERNET && ids[1] == ids[1..][0];
      ChainHas(ids, 1);
      OneIsChain(ds);
      TemplateStep(ds, One, INTERNET, ds[0].id);
    }
    ChainForward(ds, 1, 1 + b);
  }

  // ----- levels 2 and 3 -----

  /** Kinds of which the template links at most the first device. */
  predicate FirstOnlyKind(level: Level, kind: string) {
    kind == "load_balancer" || (level == Two && InCoreKinds(kind))
  }

  /** The core is no more than the Internet itself. */
  predicate BareCore(ds: seq<Device>) {
    TypeIds(ds, "firewall") == [] && TypeIds(ds, "router") == [] && TypeIds(ds, "switch") == []
  }

  /** What a caller can check beforehand: no second device of a kind whose first alone is linked. */
  predicate Complete(ds: seq<Device>, level: Level) {
    level == One ||
    (&& |TypeIds(ds, "load_balancer")| <= 1
     && (level == Two ==>
           |TypeIds(ds, "firewall")| <= 1 && |TypeIds(ds, "router")| <= 1 && |TypeIds(ds, "switch")| <= 1)
     && (BareCore(ds) ==> |TypeIds(ds, "workstation")| <= 1))
  }

  ghost predicate LayerReached(ds: seq<Device>, level: Level, kind: string) {
    forall id :: id in LayerIds(ds, level, kind) ==> Reaches(SampleEdges(ds, level), INTERNET, id)
  }

  lemma AttachIsInternet(ds: seq<Device>, level: Level)
    requires WellNamed(ds)
    ensures AttachPoint(ds, level) == INTERNET <==> BareCore(ds)
  {
    hide TypeIds;
    var sw, core := TypeIds(ds, "switch"), Core(ds, level);
    TypeIdsHold(ds, "firewall", INTERNET);
    TypeIdsHold(ds, "router", INTERNET);
    TypeIdsHold(ds, "switch", INTERNET);
    if sw != [] {
      assert sw[|sw| - 1] in sw;
    } else {
      var last := core[|core| - 1];
      assert last in core;
      assert |core| > 1 ==> last in core[1..];
    }
  }

  /** Several devices of a kind that is linked as a whole: the template reaches each. */
  lemma TemplateReachesKind(ds: seq<Device>, level: Level, kind: string, id: string)
    requires WellNamed(ds) && level != One && Complete(ds, level) && |TypeIds(ds, kind)| > 1 && id in TypeIds(ds, kind)
    ensures Reaches(TemplateEdges(ds, level), INTERNET, id)
  {
    hide TypeIds, TemplateEdges, WellNamed, Reaches;
    TypeIdsHold(ds, kind, id);
    var d :| d in ds && d.kind == kind && d.id == id;
    if level == Two { LevelTwoReachesExactly(ds, d); } else { LevelThreeReachesExactly(ds, d); }
  }

  lemma LayerFromItsHead(ds: seq<Device>, level: Level, kind: string)
    requires Usable(ds) && Complete(ds, level)
    requires Reaches(SampleEdges(ds, level), INTERNET, LayerIds(ds, level, kind)[0])
    ensures LayerReached(ds, level, kind)
  {
    hide TypeIds, TemplateEdges, SampleEdges, WellNamed, Reaches, UsedLayers, Complete;
    if |TypeIds(ds, kind)| > 1 {
      forall id | id in TypeIds(ds, kind) ensures Reaches(SampleEdges(ds, level), INTERNET, id) {
        if level == One {
          KindIsOwn(ds, kind);
          OwnReachesOwn(ds, TypeIds(ds, kind)[0], id);
        } else {
          KindReached(ds, level, kind, id);
        }
      }
    }
  }

  lemma KindIsOwn(ds: seq<Device>, kind: string)
    ensures forall id :: id in TypeIds(ds, kind) ==> id in IdsOf(ds)
  {
    TypeIdsAreOwn(ds, kind);
  }

  lemma KindReached(ds: seq<Device>, level: Level, kind: string, id: string)
    requires Usable(ds) && level != One && Complete(ds, level) && |TypeIds(ds, kind)| > 1 && id in TypeIds(ds, kind)
    ensures Reaches(SampleEdges(ds, level), INTERNET, id)
  {
    hide TypeIds, TemplateEdges, SampleEdges, WellNamed, Reaches;
    AttachIsInternet(ds, level);
    TemplateReachesKind(ds, level, kind, id);
    OthersAreNoWorkstations(ds);
    ReachTransfers(ds, level, id);
  }

  lemma {:induction false} EveryLayerReached(ds: seq<Device>, level: Level, i: nat)
    requires Usable(ds) && Complete(ds, level) && i < |Layers(ds, level)|
    ensures LayerReached(ds, level, Layers(ds, level)[i])
  {
    hide Usable, Complete, Layers, LayerIds, SampleEdges, Reaches;
    if i > 0 {
      EveryLayerReached(ds, level, i - 1);
    }
    BackboneStep(ds, level, i);
    LayerFromItsHead(ds, level, Layers(ds, level)[i]);
  }

  /** Every node but the Internet belongs to a layer. */
  lemma NodesAreLayered(ds: seq<Device>, level: Level, id: string) returns (kind: string)
    requires IsNode(ds, level, id) && id != INTERNET
    ensures kind in Layers(ds, level) && id in LayerIds(ds, level, kind)
  {
    hide Ordered, SampleKinds, UsedLayers, TypeIds;
    var n :| n in Nodes(ds, level) && n.id == id;
    LayersNotEmpty(ds, level);
    kind := n.kind;
    UsedLayersHold(ds, level, kind);
    KindHasIds(ds, kind);
    if n in DeviceNodes(Ordered(ds)) {
      DeviceNodesHold(ds, n);
    } else if n in SampleNodes(SampleKinds(ds, level)) {
      SampleKindsAreMissing(ds, level, kind);
    } else {
      WorkstationLayer(ds, level);
    }
  }

  lemma SampleKindsAreMissing(ds: seq<Device>, level: Level, kind: string)
    requires kind in SampleKinds(ds, level)
    ensures kind !in PresentKinds(ds)
  {
  }

  lemma DeviceNodesHold(ds: seq<Device>, n: Node)
    requires n in DeviceNodes(Ordered(ds))
    ensures n.id in TypeIds(ds, n.kind)
  {
    hide TypeIds, Ordered;
    var i :| 0 <= i < |Ordered(ds)| && DeviceNodes(Ordered(ds))[i] == n;
    var d := Ordered(ds)[i];
    assert d in ds by { OrderedAreDevices(ds, d); }
    TypeIdsHold(ds, d.kind, d.id);
  }

  lemma OrderedAreDevices(ds: seq<Device>, d: Device)
    requires d in Ordered(ds)
    ensures d in ds
  {
    hide Sorted;
    GroupedHolds(ds, Distinct(LAYER_ORDER + Kinds(Sorted(ds))), d);
  }

  /** A device that is not the first of its kind leads no layer. */
  lemma SecondIsNoHead(ds: seq<Device>, level: Level, d: Device, kind: string)
    requires Usable(ds) && d in ds && d.id != FirstOr(TypeIds(ds, d.kind), d.id + "!")
    requires kind in Layers(ds, level)
    ensures LayerIds(ds, level, kind)[0] != d.id
  {
    hide TypeIds, UsedLayers, Sorted;
    OwnListOnly(ds, d, kind);
    OwnListOnly(ds, d, d.kind);
    if TypeIds(ds, kind) != [] {
      assert TypeIds(ds, kind)[0] in TypeIds(ds, kind);
    } else {
      LayersWithoutDevices(ds, level, kind);
    }
  }

  /** Only links of the template and heads of layers are targets, so what is neither is never reached. */
  lemma NeitherLinkedNorHead(ds: seq<Device>, level: Level, id: string)
    requires id != INTERNET
    requires forall e :: e in TemplateEdges(ds, level) && e.target == id ==>
        e.source == INTERNET && id in WorkstationIds(ds)
    requires forall kind :: kind in Layers(ds, level) ==> LayerIds(ds, level, kind)[0] != id
    ensures !Reaches(SampleEdges(ds, level), INTERNET, id)
  {
    hide TemplateEdges, Layers, LayerIds, Backbone, WorkstationIds, Reaches;
    WorkstationLayer(ds, level);
    LayersNotEmpty(ds, level);
    var layers := Layers(ds, level);
    forall e | e in SampleEdges(ds, level) ensures e.target != id {
      assert e in Wanted(ds, level);
      if e in Backbone(ds, level, layers) {
        BackboneJoinsLayers(ds, level, layers, e);
        var i :| 1 <= i < |layers| && BackboneEdge(ds, level, layers, i) == e;
        assert layers[i] in layers;
      }
    }
    NeverTargetNeverReached(SampleEdges(ds, level), INTERNET, id);
  }

  /** The second device of a kind. */
  lemma SecondDevice(ds: seq<Device>, kind: string) returns (d: Device)
    requires WellNamed(ds) && |TypeIds(ds, kind)| > 1
    ensures d in ds && d.kind == kind && d.id == TypeIds(ds, kind)[1] && TypeIds(ds, kind)[0] != d.id
  {
    hide TypeIds, WellNamed;
    var id := TypeIds(ds, kind)[1];
    assert id in TypeIds(ds, kind);
    TypeIdsHold(ds, kind, id);
    d :| d in ds && d.kind == kind && d.id == id;
    TypeIdsDistinct(ds, kind);
  }

  lemma SecondOfFirstOnlyKind(ds: seq<Device>, level: Level, kind: string)
    requires Usable(ds) && level != One && FirstOnlyKind(level, kind) && |TypeIds(ds, kind)| > 1
    ensures exists d :: d in ds && !Reaches(SampleEdges(ds, level), INTERNET, d.id)
  {
    hide TypeIds, TemplateEdges, SampleEdges, Reaches, Layers, LayerIds, Core, Hub, WorkstationIds, AttachPoint;
    var d := SecondDevice(ds, kind);
    forall other | other in Layers(ds, level) ensures LayerIds(ds, level, other)[0] != d.id {
      SecondIsNoHead(ds, level, d, other);
    }
    forall e | e in TemplateEdges(ds, level) ensures e.target != d.id {
      if level == Two {
        CoreTail(ds, Two);
        CoreTargetsTwo(ds, e);
        CoreOfTwo(ds, d);
      } else {
        EdgesOfThree(ds, e);
        LeftOutNeverTargeted(ds, d);
      }
    }
    NeitherLinkedNorHead(ds, level, d.id);
  }

  lemma SecondWorkstation(ds: seq<Device>, level: Level)
    requires Usable(ds) && level != One && BareCore(ds) && |TypeIds(ds, "workstation")| > 1
    ensures exists d :: d in ds && !Reaches(SampleEdges(ds, level), INTERNET, d.id)
  {
    hide TypeIds, TemplateEdges, SampleEdges, Reaches, Layers, LayerIds, WorkstationIds, AttachPoint, BareCore;
    var d := SecondDevice(ds, "workstation");
    forall other | other in Layers(ds, level) ensures LayerIds(ds, level, other)[0] != d.id {
      SecondIsNoHead(ds, level, d, other);
    }
    OwnListOnly(ds, d, "workstation");
    AttachIsInternet(ds, level);
    forall e | e in TemplateEdges(ds, level) && e.target == d.id ensures e.source == INTERNET {
      WorkstationLinks(ds, level, e);
    }
    NeitherLinkedNorHead(ds, level, d.id);
  }

  /** The Internet reaches every node of the sample exactly when no second device is left hanging; at level 1 always. */
  lemma SampleIsConnectedExactlyWhen(ds: seq<Device>, level: Level)
    requires Usable(ds)
    ensures (forall id :: IsNode(ds, level, id) ==> Reaches(SampleEdges(ds, level), INTERNET, id)) <==>
        Complete(ds, level)
  {
    hide Usable, Layers, LayerIds, SampleEdges, Reaches, IsNode, TypeIds, WellNamed;
    if Complete(ds, level) {
      forall id | IsNode(ds, level, id) ensures Reaches(SampleEdges(ds, level), INTERNET, id) {
        NodeReached(ds, level, id);
      }
    } else {
      assert exists d :: d in ds && !Reaches(SampleEdges(ds, level), INTERNET, d.id) by {
        if BareCore(ds) && |TypeIds(ds, "workstation")| > 1 {
          SecondWorkstation(ds, level);
        } else {
          var kind :| FirstOnlyKind(level, kind) && |TypeIds(ds, kind)| > 1;
          SecondOfFirstOnlyKind(ds, level, kind);
        }
      }
      var d :| d in ds && !Reaches(SampleEdges(ds, level), INTERNET, d.id);
      DevicesAreNodes(ds, level, d.id);
    }
  }

  lemma NodeReached(ds: seq<Device>, level: Level, id: string)
    requires Usable(ds) && Complete(ds, level) && IsNode(ds, level, id)
    ensures Reaches(SampleEdges(ds, level), INTERNET, id)
  {
    hide Usable, Complete, Layers, LayerIds, SampleEdges, Reaches, IsNode;
    if id == INTERNET {
      ReachesItself(SampleEdges(ds, level), INTERNET);
    } else {
      var kind := NodesAreLayered(ds, level, id);
      var i :| 0 <= i < |Layers(ds, level)| && Layers(ds, level)[i] == kind;
      EveryLayerReached(ds, level, i);
    }
  }

  // ----- with no kind repeated -----

  predicate NoKindTwice(ds: seq<Device>) {
    forall i, j :: 0 <= i < j < |ds| ==> ds[i].kind != ds[j].kind
  }

  lemma OneOfEachKind(ds: seq<Device>, kind: string)
    requires WellNamed(ds) && NoKindTwice(ds)
    ensures |TypeIds(ds, kind)| <= 1
  {
    hide TypeIds, WellNamed, NoKindTwice;
    if |TypeIds(ds, kind)| > 1 {
      TwoOfAKind(ds, kind);
    }
  }

  lemma TwoOfAKind(ds: seq<Device>, kind: string)
    requires WellNamed(ds) && |TypeIds(ds, kind)| > 1
    ensures !NoKindTwice(ds)
  {
    hide TypeIds, WellNamed;
    var d := SecondDevice(ds, kind);
    var first := TypeIds(ds, kind)[0];
    assert first in TypeIds(ds, kind);
    TypeIdsHold(ds, kind, first);
    var c :| c in ds && c.kind == kind && c.id == first;
    var i :| 0 <= i < |ds| && ds[i] == c;
    var j :| 0 <= j < |ds| && ds[j] == d;
    assert ds[i].kind == ds[j].kind && i != j;
  }

  /** The links from the Internet through the heads of the layers. */
  function Spine(ds: seq<Device>, level: Level): seq<Edge> {
    Backbone(ds, level, Layers(ds, level)) + [Edge(INTERNET, LayerIds(ds, level, Layers(ds, level)[0])[0])]
  }

  lemma {:induction false} SpineReaches(ds: seq<Device>, level: Level, i: nat)
    requires WellNamed(ds) && NoKindTwice(ds) && i < |Layers(ds, level)|
    ensures LayerIds(ds, level, Layers(ds, level)[i]) == [LayerIds(ds, level, Layers(ds, level)[i])[0]]
    ensures Reaches(Spine(ds, level), INTERNET, LayerIds(ds, level, Layers(ds, level)[i])[0])
  {
    hide TypeIds, Layers, UsedLayers, Backbone, WellNamed, NoKindTwice;
    var layers := Layers(ds, level);
    OneOfEachKind(ds, layers[i]);
    var head := LayerIds(ds, level, layers[i])[0];
    var from := INTERNET;
    if i > 0 {
      SpineReaches(ds, level, i - 1);
      BackboneHasAll(ds, level, layers, i);
      from := LayerIds(ds, level, layers[i - 1])[0];
    } else {
      ReachesItself(Spine(ds, level), INTERNET);
    }
    assert Edge(from, head) in Spine(ds, level);
    LinkedByMember(Spine(ds, level), from, head);
    OneStep(Spine(ds, level), INTERNET, from, head);
  }

  /** If no kind repeats, every node hangs on the spine, and the sample is connected. */
  lemma NoKindTwiceIsConnected(ds: seq<Device>, level: Level, id: string)
    requires Usable(ds) && NoKindTwice(ds) && IsNode(ds, level, id)
    ensures Reaches(Spine(ds, level), INTERNET, id) && Reaches(SampleEdges(ds, level), INTERNET, id)
  {
    hide Layers, LayerIds, SampleEdges, Reaches, IsNode, TypeIds, WellNamed, NoKindTwice, Spine;
    OneOfEachKind(ds, "load_balancer");
    OneOfEachKind(ds, "firewall");
    OneOfEachKind(ds, "router");
    OneOfEachKind(ds, "switch");
    OneOfEachKind(ds, "workstation");
    SampleIsConnectedExactlyWhen(ds, level);
    if id == INTERNET {
      ReachesItself(Spine(ds, level), INTERNET);
    } else {
      var kind := NodesAreLayered(ds, level, id);
      var i :| 0 <= i < |Layers(ds, level)| && Layers(ds, level)[i] == kind;
      SpineReaches(ds, level, i);
    }
  }

  // ----- taking saved links over onto the canvas -----

  /** Links with both ends among the nodes. */
  function Inside(edges: seq<Edge>, ids: set<string>): (r: seq<Edge>)
    ensures forall e :: e in r <==> e in edges && e.source in ids && e.target in ids
  {
    if edges == [] then []
    else
      var last := edges[|edges| - 1];
      Inside(edges[..|edges| - 1], ids) + if last.source in ids && last.target in ids then [last] else []
  }

  /** What the canvas shows: the saved links with both ends present, or the automatic links for an empty list. */
  function Shown(saved: seq<Edge>, ids: set<string>, auto: seq<Edge>): seq<Edge> {
    if saved == [] then auto else Added(Inside(saved, ids))
  }

  method SavedEdgesToFlow(saved: seq<Edge>, ids: set<string>, auto: seq<Edge>) returns (result: seq<Edge>)
    ensures result == Shown(saved, ids, auto)
    ensures saved != [] ==> NoRepeats(result)
    ensures saved != [] ==> forall e :: e in result ==>
        e in saved && e.source in ids && e.target in ids && e.source != e.target
  {
    if saved == [] {
      return auto;
    }
    hide *;
    var seen: set<string> := {};
    result := [];
    assert saved[..0] == [];
    NothingInside(ids);
    for i := 0 to |saved|
      invariant result == Added(Inside(saved[..i], ids)) && seen == KeysOf(result)
    {
      var e := saved[i];
      TakeOverStep(saved, ids, i);
      if e.source !in ids || e.target !in ids || e.source == e.target || Key(e) in seen {
        continue;
      }
      KeysOfMore(result, e);
      seen := seen + {Key(e)};
      result := result + [e];
    }
    assert saved[..|saved|] == saved;
    AddedHasNoRepeats(Inside(saved, ids));
  }

  lemma NothingInside(ids: set<string>)
    ensures Added(Inside([], ids)) == []
  {
  }

  lemma InsideStep(saved: seq<Edge>, ids: set<string>, i: nat)
    requires i < |saved|
    ensures Inside(saved[..i + 1], ids) ==
            Inside(saved[..i], ids) + if saved[i].source in ids && saved[i].target in ids then [saved[i]] else []
  {
    assert saved[..i + 1][..i] == saved[..i];
  }

  lemma AddedStep(edges: seq<Edge>, e: Edge)
    ensures Added(edges + [e]) ==
            if e.source == e.target || Key(e) in KeysOf(Added(edges)) then Added(edges) else Added(edges) + [e]
  {
    hide Key, KeysOf;
    assert (edges + [e])[..|edges|] == edges;
  }

  lemma TakeOverStep(saved: seq<Edge>, ids: set<string>, i: nat)
    requires i < |saved|
    ensures var r, e := Added(Inside(saved[..i], ids)), saved[i];
            Added(Inside(saved[..i + 1], ids)) ==
            if e.source !in ids || e.target !in ids || e.source == e.target || Key(e) in KeysOf(r) then r else r + [e]
  {
    hide *;
    InsideStep(saved, ids, i);
    AddedStep(Inside(saved[..i], ids), saved[i]);
    assert Inside(saved[..i], ids) + [] == Inside(saved[..i], ids);
  }

  lemma KeysOfMore(edges: seq<Edge>, e: Edge)
    ensures KeysOf(edges + [e]) == KeysOf(edges) + {Key(e)}
  {
    hide Key;
  }

  ghost predicate KeysDiffer(edges: seq<Edge>) {
    forall i, j :: 0 <= i < j < |edges| ==> Key(edges[i]) != Key(edges[j])
  }

  lemma {:induction false} AddedKeysDiffer(edges: seq<Edge>)
    ensures KeysDiffer(Added(edges))
  {
    if edges != [] {
      AddedKeysDiffer(edges[..|edges| - 1]);
    }
  }

  lemma NewKey(edges: seq<Edge>, last: Edge)
    requires KeysDiffer(edges + [last])
    ensures Key(last) !in KeysOf(edges)
  {
    hide Key;
    forall e | e in edges ensures Key(e) != Key(last) {
      var i :| 0 <= i < |edges| && edges[i] == e;
      assert (edges + [last])[i] == e && (edges + [last])[|edges|] == last;
    }
  }

  lemma {:induction false} NothingToDrop(edges: seq<Edge>, ids: set<string>)
    requires KeysDiffer(edges) && forall e :: e in edges ==> e.source in ids && e.target in ids && e.source != e.target
    ensures Added(Inside(edges, ids)) == edges
  {
    hide Key, KeysOf, Inside, Added;
    if edges == [] {
      NothingInside(ids);
    } else {
      var init, last := edges[..|edges| - 1], edges[|edges| - 1];
      NothingToDrop(init, ids);
      assert init + [last] == edges;
      NewKey(init, last);
      TakeOverStep(edges, ids, |edges| - 1);
      assert edges[..|edges| - 1 + 1] == edges;
    }
  }

  lemma InsideTwice(saved: seq<Edge>, ids: set<string>, more: set<string>)
    requires ids <= more
    ensures Added(Inside(Added(Inside(saved, ids)), more)) == Added(Inside(saved, ids))
  {
    AddedKeysDiffer(Inside(saved, ids));
    NothingToDrop(Added(Inside(saved, ids)), more);
  }

  /** Some saved link joins two different nodes that are there. */
  predicate HasLink(saved: seq<Edge>, ids: set<string>) {
    exists e :: e in saved && e.source in ids && e.target in ids && e.source != e.target
  }

  lemma {:induction false} NothingAddedExactlyWhen(edges: seq<Edge>)
    ensures Added(edges) == [] <==> forall e :: e in edges ==> e.source == e.target
  {
    if edges != [] {
      var init, last := edges[..|edges| - 1], edges[|edges| - 1];
      NothingAddedExactlyWhen(init);
      assert forall e :: e in edges <==> e in init || e == last;
      hide Key;
    }
  }

  /** Nothing is shown of saved links exactly when none joins two different nodes that are there. */
  lemma NothingShownExactlyWhen(saved: seq<Edge>, ids: set<string>, auto: seq<Edge>)
    requires saved != []
    ensures Shown(saved, ids, auto) == [] <==> !HasLink(saved, ids)
  {
    hide Added;
    NothingAddedExactlyWhen(Inside(saved, ids));
    hide Inside;
  }

  /**
   * What the canvas shows of saved links it shows again the next time, if its nodes remain, exactly if one
   * of them joins two nodes that are there; otherwise the automatic links, if any, come instead.
   */
  lemma TakenOverTwice(saved: seq<Edge>, ids: set<string>, more: set<string>, auto: seq<Edge>)
    requires ids <= more && saved != []
    ensures Shown(Shown(saved, ids, auto), more, auto) == Shown(saved, ids, auto) <==> HasLink(saved, ids) || auto == []
  {
    hide Added, Inside, HasLink;
    InsideTwice(saved, ids, more);
    NothingShownExactlyWhen(saved, ids, auto);
  }

  /** Links to missing nodes only: first nothing is shown, and once that is saved, the automatic links. */
  lemma GoneLinksGiveWayLater(a: string, b: string, ids: set<string>, auto: seq<Edge>)
    requires a !in ids
    ensures Shown([Edge(a, b)], ids, auto) == [] && Shown(Shown([Edge(a, b)], ids, auto), ids, auto) == auto
  {
    hide Added;
    NothingShownExactlyWhen([Edge(a, b)], ids, auto);
  }

  function NodeIds(ds: seq<Device>, level: Level): set<string> {
    set n | n in Nodes(ds, level) :: n.id
  }

  lemma HeadIsNotInternet(ds: seq<Device>, level: Level, kind: string)
    requires Usable(ds) && kind in Layers(ds, level)
    ensures LayerIds(ds, level, kind)[0] != INTERNET
  {
    hide TypeIds, UsedLayers, Layers;
    var id := LayerIds(ds, level, kind)[0];
    TypeIdsHold(ds, kind, INTERNET);
    assert WORKSTATION[2] != INTERNET[2] && SampleId(kind)[0] == 's' && INTERNET[0] == '_';
    if TypeIds(ds, kind) != [] {
      assert id in TypeIds(ds, kind);
    }
  }

  /** A sample always has a link: the one from the Internet to its first layer. */
  lemma SampleHasLink(ds: seq<Device>, level: Level)
    requires Usable(ds)
    ensures SampleEdges(ds, level) != []
  {
    hide Layers, LayerIds, Backbone, KeptTemplate, TemplateEdges, SampleEdges;
    LayersNotEmpty(ds, level);
    var layers := Layers(ds, level);
    HeadIsNotInternet(ds, level, layers[0]);
    var e := Edge(INTERNET, LayerIds(ds, level, layers[0])[0]);
    assert e in Wanted(ds, level);
    WantedIsKept(ds, level, e);
  }

  /** The canvas shows a sample with exactly the links it has, whatever the automatic links, since it always has one. */
  lemma SampleIsTakenOver(ds: seq<Device>, level: Level, auto: seq<Edge>)
    ensures Shown(SampleEdges(ds, level), NodeIds(ds, level), auto) == SampleEdges(ds, level) <==>
            SampleEdges(ds, level) != [] || auto == []
    ensures Usable(ds) ==> SampleEdges(ds, level) != []
  {
    hide Nodes, Wanted, Added, Inside, Usable;
    if Usable(ds) {
      SampleHasLink(ds, level);
    }
    SampleEdgesAreSound(ds, level);
    AddedKeysDiffer(Wanted(ds, level));
    NothingToDrop(SampleEdges(ds, level), NodeIds(ds, level));
  }
}
