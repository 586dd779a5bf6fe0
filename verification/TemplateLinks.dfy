/** Which links the templates have, one by one. */
module TemplateLinks {
  import opened Graph
  import opened Topology

  /** b comes right after a in the list. */
  predicate Follows(ids: seq<string>, a: string, b: string) {
    exists i :: 0 <= i < |ids| - 1 && ids[i] == a && ids[i + 1] == b
  }

  /** Both ends are present and different. */
  predicate Proper(e: Edge) {
    e.source != "" && e.target != "" && e.source != e.target
  }

  lemma {:induction false} ChainLinksExactly(ids: seq<string>, e: Edge)
    ensures e in Chain(ids) <==> Proper(e) && Follows(ids, e.source, e.target)
  {
    if |ids| >= 2 {
      var n := |ids|;
      ChainLinksExactly(ids[..n - 1], e);
      if Follows(ids, e.source, e.target) {
        var i :| 0 <= i < n - 1 && ids[i] == e.source && ids[i + 1] == e.target;
        assert i < n - 2 ==> ids[..n - 1][i] == e.source && ids[..n - 1][i + 1] == e.target;
      }
      if Follows(ids[..n - 1], e.source, e.target) {
        var i :| 0 <= i < n - 2 && ids[..n - 1][i] == e.source && ids[..n - 1][i + 1] == e.target;
        assert ids[i] == e.source && ids[i + 1] == e.target;
      }
      assert ids[n - 2] == e.source && ids[n - 2 + 1] == e.target ==> Follows(ids, e.source, e.target);
    }
  }

  lemma {:induction false} StarLinksExactly(source: string, ids: seq<string>, e: Edge)
    ensures e in Star(source, ids) <==> Proper(e) && e.source == source && e.target in ids
  {
    if ids != [] {
      StarLinksExactly(source, ids[..|ids| - 1], e);
    }
  }

  /** The id of a device of this kind. */
  predicate OfKindId(ds: seq<Device>, kind: string, id: string) {
    exists d :: d in ds && d.kind == kind && d.id == id
  }

  /** A workstation's id: a device's, or the default one when no device is a workstation. */
  predicate IsWorkstationId(ds: seq<Device>, id: string) {
    if HasWorkstation(ds) then OfKindId(ds, "workstation", id) else id == WORKSTATION
  }

  /** The id of a device that the template does not place by its kind. */
  predicate IsOtherId(ds: seq<Device>, id: string) {
    exists d :: d in ds && d.id == id &&
      d.kind !in {"firewall", "router", "switch", "server", "load_balancer", "storage", "ups", "website"}
  }

  lemma WorkstationIdsHold(ds: seq<Device>, id: string)
    ensures id in WorkstationIds(ds) <==> IsWorkstationId(ds, id)
  {
    TypeIdsHold(ds, "workstation", id);
  }

  lemma RestHolds(ds: seq<Device>, id: string)
    ensures id in IdsOf(Rest(ds)) <==> IsOtherId(ds, id)
  {
  }

  /** Level 1: from the Internet through all devices as they are given to the workstations. */
  lemma LevelOneLinks(ds: seq<Device>, e: Edge)
    ensures e in TemplateEdges(ds, One) <==>
            Proper(e) && Follows([INTERNET] + IdsOf(ds) + WorkstationIds(ds), e.source, e.target)
  {
    ChainLinksExactly([INTERNET] + IdsOf(ds) + WorkstationIds(ds), e);
  }

  /** The last switch in declared order; without one the last router, else the last firewall, else the Internet. */
  predicate IsAttachPoint(ds: seq<Device>, level: Level, id: string) {
    var fw, rt, sw := TypeIds(ds, "firewall"), TypeIds(ds, "router"), TypeIds(ds, "switch");
    if sw != [] then id == sw[|sw| - 1]
    else if rt != [] then id == if level == Two then rt[0] else rt[|rt| - 1]
    else if fw != [] then id == if level == Two then fw[0] else fw[|fw| - 1]
    else id == INTERNET
  }

  lemma AttachPointIs(ds: seq<Device>, level: Level)
    ensures IsAttachPoint(ds, level, AttachPoint(ds, level))
  {
    hide TypeIds;
  }

  /** Level 2: one of each core kind in a row; servers, websites, storages, supplies and the rest at its end. */
  lemma LevelTwoLinks(ds: seq<Device>, e: Edge)
    ensures e in TemplateEdges(ds, Two) <==>
            && Proper(e)
            && (|| Follows([INTERNET] + FirstOnly(TypeIds(ds, "firewall")) + FirstOnly(TypeIds(ds, "router"))
                           + FirstOnly(TypeIds(ds, "switch")), e.source, e.target)
                || (IsAttachPoint(ds, Two, e.source) &&
                    (OfKindId(ds, "server", e.target) || OfKindId(ds, "website", e.target)
                     || OfKindId(ds, "storage", e.target) || OfKindId(ds, "ups", e.target)
                     || IsOtherId(ds, e.target) || IsWorkstationId(ds, e.target))))
  {
    hide TypeIds, WorkstationIds, IsWorkstationId, IsOtherId, OfKindId, AttachPoint, IsAttachPoint, Chain, Star,
      Follows;
    ChainLinksExactly(Core(ds, Two), e);
    StarLinksExactly(AttachPoint(ds, Two), Hub(ds), e);
    StarLinksExactly(AttachPoint(ds, Two), WorkstationIds(ds), e);
    HubHolds(ds, e.target);
    WorkstationIdsHold(ds, e.target);
    AttachPointIs(ds, Two);
    OneAttachPoint(ds, Two, AttachPoint(ds, Two), e.source);
  }

  lemma OneAttachPoint(ds: seq<Device>, level: Level, a: string, b: string)
    requires IsAttachPoint(ds, level, a)
    ensures IsAttachPoint(ds, level, b) <==> a == b
  {
    hide TypeIds;
  }

  lemma HubHolds(ds: seq<Device>, id: string)
    ensures id in Hub(ds) <==>
            OfKindId(ds, "server", id) || OfKindId(ds, "website", id) || OfKindId(ds, "storage", id)
            || OfKindId(ds, "ups", id) || IsOtherId(ds, id)
  {
    hide TypeIds, IsOtherId;
    TypeIdsHold(ds, "server", id);
    TypeIdsHold(ds, "website", id);
    TypeIdsHold(ds, "storage", id);
    TypeIdsHold(ds, "ups", id);
    RestHolds(ds, id);
  }

  /** Server links at level 3: through the first load balancer in a row, or without one on the attach point. */
  predicate ServerLinked(ds: seq<Device>, e: Edge) {
    var lbs, servers := TypeIds(ds, "load_balancer"), TypeIds(ds, "server");
    if lbs != [] && servers != [] then
      (IsAttachPoint(ds, Three, e.source) && e.target == lbs[0]) || Follows([lbs[0]] + servers, e.source, e.target)
    else IsAttachPoint(ds, Three, e.source) && e.target in servers
  }

  /** The first device of the kind, or the attach point when there is none. */
  predicate IsFirstOrAttach(ds: seq<Device>, kind: string, id: string) {
    if TypeIds(ds, kind) != [] then id == TypeIds(ds, kind)[0] else IsAttachPoint(ds, Three, id)
  }

  /** Supplies hang in a row from the first storage, or from the attach point. */
  ghost predicate PowerLinked(ds: seq<Device>, e: Edge) {
    exists head :: IsFirstOrAttach(ds, "storage", head) && Follows([head] + TypeIds(ds, "ups"), e.source, e.target)
  }

  /** Level 3: all core devices in a row; servers, websites, storages and supplies by their rules; then the rest. */
  lemma LevelThreeLinks(ds: seq<Device>, e: Edge)
    ensures e in TemplateEdges(ds, Three) <==>
            && Proper(e)
            && (|| Follows([INTERNET] + TypeIds(ds, "firewall") + TypeIds(ds, "router") + TypeIds(ds, "switch"),
                           e.source, e.target)
                || ServerLinked(ds, e) || PowerLinked(ds, e)
                || (IsFirstOrAttach(ds, "firewall", e.source) && OfKindId(ds, "website", e.target))
                || (IsFirstOrAttach(ds, "server", e.source) && OfKindId(ds, "storage", e.target))
                || (IsAttachPoint(ds, Three, e.source) && (IsOtherId(ds, e.target) || IsWorkstationId(ds, e.target))))
  {
    hide TypeIds, WorkstationIds, IsWorkstationId, IsOtherId, OfKindId, AttachPoint, IsAttachPoint, Chain, Star,
      Follows, ServerLinks, ServerLinked, PowerLinked, Rest;
    var attach := AttachPoint(ds, Three);
    AttachPointIs(ds, Three);
    OneAttachPoint(ds, Three, attach, e.source);
    ChainLinksExactly(Core(ds, Three), e);
    ServerLinksExactly(ds, e);
    PowerLinksExactly(ds, e);
    StarLinksExactly(FirstOr(TypeIds(ds, "firewall"), attach), TypeIds(ds, "website"), e);
    StarLinksExactly(FirstOr(TypeIds(ds, "server"), attach), TypeIds(ds, "storage"), e);
    StarLinksExactly(attach, IdsOf(Rest(ds)), e);
    StarLinksExactly(attach, WorkstationIds(ds), e);
    TypeIdsHoldHere(ds, e.target);
    RestHolds(ds, e.target);
    WorkstationIdsHold(ds, e.target);
  }

  lemma TypeIdsHoldHere(ds: seq<Device>, id: string)
    ensures id in TypeIds(ds, "website") <==> OfKindId(ds, "website", id)
    ensures id in TypeIds(ds, "storage") <==> OfKindId(ds, "storage", id)
  {
    hide TypeIds;
    TypeIdsHold(ds, "website", id);
    TypeIdsHold(ds, "storage", id);
  }

  lemma ServerLinksExactly(ds: seq<Device>, e: Edge)
    ensures e in ServerLinks(ds) <==> Proper(e) && ServerLinked(ds, e)
  {
    hide TypeIds, AttachPoint, IsAttachPoint, Chain, Star, Follows;
    var attach, lbs, servers := AttachPoint(ds, Three), TypeIds(ds, "load_balancer"), TypeIds(ds, "server");
    AttachPointIs(ds, Three);
    OneAttachPoint(ds, Three, attach, e.source);
    if lbs != [] && servers != [] {
      ChainLinksExactly([lbs[0]] + servers, e);
    } else {
      StarLinksExactly(attach, servers, e);
    }
  }

  lemma PowerLinksExactly(ds: seq<Device>, e: Edge)
    ensures var head := FirstOr(TypeIds(ds, "storage"), AttachPoint(ds, Three));
            e in Chain([head] + TypeIds(ds, "ups")) <==> Proper(e) && PowerLinked(ds, e)
  {
    hide TypeIds, AttachPoint, IsAttachPoint, Chain, Follows;
    var head := FirstOr(TypeIds(ds, "storage"), AttachPoint(ds, Three));
    AttachPointIs(ds, Three);
    forall other ensures IsFirstOrAttach(ds, "storage", other) <==> other == head {
      OneAttachPoint(ds, Three, AttachPoint(ds, Three), other);
    }
    ChainLinksExactly([head] + TypeIds(ds, "ups"), e);
  }

  // ----- devices of one kind -----

  /** ps are the positions, in order, of all devices of the kind. */
  ghost predicate ArePlaces(ds: seq<Device>, kind: string, ps: seq<nat>, found: seq<Device>) {
    && |ps| == |found|
    && (forall i :: 0 <= i < |ps| ==> ps[i] < |ds| && ds[ps[i]] == found[i])
    && (forall i, j :: 0 <= i < j < |ps| ==> ps[i] < ps[j])
    && (forall p :: 0 <= p < |ds| ==> (ds[p].kind == kind <==> p in ps))
  }

  lemma {:induction false} KindPlaces(ds: seq<Device>, kind: string) returns (ps: seq<nat>)
    ensures ArePlaces(ds, kind, ps, OfKind(ds, kind))
  {
    hide ArePlaces;
    ps := [];
    if ds == [] {
      NoPlaces(kind);
    } else {
      var last := |ds| - 1;
      ps := KindPlaces(ds[..last], kind);
      OneMorePlace(ds, kind, ps, OfKind(ds[..last], kind));
      if ds[last].kind == kind {
        ps := ps + [last];
      } else {
        assert OfKind(ds[..last], kind) + [] == OfKind(ds[..last], kind);
      }
    }
  }

  lemma NoPlaces(kind: string)
    ensures ArePlaces([], kind, [], [])
  {
  }

  lemma OneMorePlace(ds: seq<Device>, kind: string, ps: seq<nat>, found: seq<Device>)
    requires ds != [] && ArePlaces(ds[..|ds| - 1], kind, ps, found)
    ensures var last := |ds| - 1;
            if ds[last].kind == kind then ArePlaces(ds, kind, ps + [last], found + [ds[last]])
            else ArePlaces(ds, kind, ps, found)
  {
    var last := |ds| - 1;
    forall i | 0 <= i < |ps| ensures ps[i] < last && ds[ps[i]] == found[i] {
      assert ds[..last][ps[i]] == found[i];
    }
    forall p | 0 <= p < last ensures ds[p].kind == kind <==> p in ps {
      assert ds[..last][p] == ds[p];
    }
    assert last !in ps;
  }

  /** The builder's list of one kind: its devices in declared order, equal orders as given, none left out. */
  lemma ByTypeIsDeclaredOrder(ds: seq<Device>, kind: string) returns (ps: seq<nat>)
    ensures ArePlaces(Sorted(ds), kind, ps, ByType(ds, kind))
    ensures InOrder(ByType(ds, kind))
  {
    ps := KindPlaces(Sorted(ds), kind);
    SortedIsStable(ds, 0);
  }
}
