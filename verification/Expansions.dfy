/** Validating the model's requests for event-log detail against the case range and the sampled event ids. */
module Expansions {
  import opened Common
  import opened Catalog
  import opened Json
  import opened Sequences

  const MAX_DETAIL_CALLS := 2

  datatype Expansion = Expansion(after: Instant, before: Instant, ids: seq<string>)

  /** An expansion object has passed validate_window: its window runs forward, for at most an hour. */
  type CheckedExpansion = e: Expansion | e.after <= e.before <= e.after + HOUR witness Expansion(0, 0, [])

  /**
   * What the model returns: an expansion object taken as it is, or a dict still to be checked.
   * A missing or ill-typed field is None; `message` is the text, in lower case, of the error
   * that the schema library raises if the dict is refused.
   */
  datatype Raw =
    | Object(expansion: CheckedExpansion)
    | Dict(after: Option<Stamp>, before: Option<Stamp>, ids: Option<seq<string>>, rationale: Option<string>,
        message: string)

  /** EventLogExpansion with its validate_window. */
  function Parse(raw: Raw): Result<Expansion> {
    match raw
    case Object(e) => Ok(e)
    case Dict(Some(after), Some(before), Some(ids), Some(rationale), message) =>
      if ids == [] || !(1 <= |rationale| <= 500) || after.Naive? || before.Naive?
         || before.Utc() < after.Utc() || before.Utc() - after.Utc() > HOUR
      then Err(message)
      else Ok(Expansion(after.Utc(), before.Utc(), ids))
    case Dict(_, _, _, _, message) => Err(message)
  }

  predicate Contains(text: string, part: string) {
    exists i :: 0 <= i <= |text| && part <= text[i..]
  }

  function SchemaLabel(message: string): string {
    if Contains(message, "60 minutes") || Contains(message, "exceeds") then "window_exceeds_60_minutes"
    else if Contains(message, "before") || Contains(message, "after") then "window_before_case_range"
    else "expansion_schema_invalid"
  }

  function IdSet(e: Expansion): set<string> {
    set id | id in e.ids
  }

  /** Why an expansion is refused, leaving duplicates aside; None when it is acceptable. */
  function Objection(raw: Raw, range: TimeRange, sampled: set<string>): Option<string> {
    match Parse(raw)
    case Err(message) => Some(SchemaLabel(message))
    case Ok(e) =>
      if e.ids == [] then Some("event_ids_empty")
      else if !(IdSet(e) <= sampled) then Some("event_ids_not_in_sample")
      else if e.after < range.from then Some("window_before_case_range")
      else if e.before > range.to then Some("window_after_case_range")
      else if e.before - e.after > HOUR then Some("window_exceeds_60_minutes")
      else None
  }

  predicate AllSampled(e: Expansion, sampled: set<string>) {
    forall id :: id in e.ids ==> id in sampled
  }

  /** An expansion the case permits: sampled ids only, and a window of at most an hour inside the range. */
  predicate Permitted(e: Expansion, range: TimeRange, sampled: set<string>) {
    && e.ids != []
    && AllSampled(e, sampled)
    && range.from <= e.after <= e.before <= range.to
    && e.before - e.after <= HOUR
  }

  // ----- reference definitions -----

  function ValidOnes(raws: seq<Raw>, range: TimeRange, sampled: set<string>): (es: seq<Expansion>)
    ensures forall e :: e in es ==> Permitted(e, range, sampled)
  {
    if raws == [] then []
    else
      var last := raws[|raws| - 1];
      ValidOnes(raws[..|raws| - 1], range, sampled) +
      if Objection(last, range, sampled) == None then
        SampledExactlyWhen(Parse(last).value, sampled);
        [Parse(last).value]
      else []
  }

  predicate Covers(es: seq<Expansion>, e: Expansion) {
    exists other :: other in es && IdSet(other) == IdSet(e)
  }

  /** The first expansion for each set of event ids, in order. */
  function FirstPerIdSet(es: seq<Expansion>): (r: seq<Expansion>)
    ensures forall e :: e in r ==> e in es
  {
    if es == [] then []
    else
      var r := FirstPerIdSet(es[..|es| - 1]);
      if Covers(r, es[|es| - 1]) then r else r + [es[|es| - 1]]
  }

  function Unique(raws: seq<Raw>, range: TimeRange, sampled: set<string>): seq<Expansion> {
    FirstPerIdSet(ValidOnes(raws, range, sampled))
  }

  /** One label per item that is refused or repeats an earlier id set. */
  function Labels(raws: seq<Raw>, range: TimeRange, sampled: set<string>): seq<string> {
    if raws == [] then []
    else
      var init, last := raws[..|raws| - 1], raws[|raws| - 1];
      var labels := Labels(init, range, sampled);
      match Objection(last, range, sampled)
      case Some(why) => labels + [why]
      case None =>
        if Covers(Unique(init, range, sampled), Parse(last).value) then labels + ["expansion_duplicate"] else labels
  }

  function Accepted(raws: seq<Raw>, range: TimeRange, sampled: set<string>): seq<Expansion> {
    Prefix(Unique(raws, range, sampled), MAX_DETAIL_CALLS)
  }

  /** How many items are read before the accepted list is full. */
  function Examined(raws: seq<Raw>, range: TimeRange, sampled: set<string>): (n: nat)
    ensures n <= |raws|
  {
    if raws == [] then 0
    else
      var init := raws[..|raws| - 1];
      var n := Examined(init, range, sampled);
      if n < |init| || |Unique(init, range, sampled)| >= MAX_DETAIL_CALLS then n else |raws|
  }

  function Rejections(raws: seq<Raw>, range: TimeRange, sampled: set<string>): seq<string> {
    var n := Examined(raws, range, sampled);
    Labels(raws[..n], range, sampled) + if n < |raws| then ["expansion_count_exceeded"] else []
  }

  // ----- what is accepted, and why the rest is not -----

  /** A zoned timestamp is this instant: its wall clock less its offset. */
  predicate IsAt(stamp: Stamp, t: Instant) {
    stamp.Aware? && stamp.wall - stamp.offset == t
  }

  /**
   * The item reads as this expansion: an expansion object as it is; a dict with zoned ends of a forward window of
   * at most an hour, some ids, and a rationale of 1 to 500 characters.
   */
  ghost predicate Reads(raw: Raw, e: Expansion) {
    match raw
    case Object(own) => e == own
    case Dict(after, before, ids, rationale, _) =>
      && after.Some? && IsAt(after.value, e.after) && before.Some? && IsAt(before.value, e.before)
      && ids == Some(e.ids) && e.ids != []
      && rationale.Some? && 1 <= |rationale.value| <= 500
      && e.after <= e.before <= e.after + HOUR
  }

  lemma ParsesExactlyWhen(raw: Raw, e: Expansion)
    ensures Parse(raw) == Ok(e) <==> Reads(raw, e)
  {
  }

  ghost predicate Acceptable(raw: Raw, range: TimeRange, sampled: set<string>) {
    exists e :: Reads(raw, e) && Permitted(e, range, sampled)
  }

  lemma SampledExactlyWhen(e: Expansion, sampled: set<string>)
    ensures AllSampled(e, sampled) <==> IdSet(e) <= sampled
    ensures e.ids == [] ==> AllSampled(e, sampled)
  {
    assert forall id :: id in e.ids <==> id in IdSet(e);
  }

  /** An item meets no objection exactly if it reads as an expansion that the case permits. */
  lemma AcceptableExactlyWhen(raw: Raw, range: TimeRange, sampled: set<string>)
    ensures Objection(raw, range, sampled) == None <==> Acceptable(raw, range, sampled)
    ensures Objection(raw, range, sampled) == None ==> Reads(raw, Parse(raw).value)
  {
    hide Parse, Reads, IdSet;
    if Parse(raw).Ok? {
      ParsesExactlyWhen(raw, Parse(raw).value);
      SampledExactlyWhen(Parse(raw).value, sampled);
    }
    if e :| Reads(raw, e) && Permitted(e, range, sampled) {
      ParsesExactlyWhen(raw, e);
    }
    if Objection(raw, range, sampled) == None {
      ReadsForward(raw, Parse(raw).value);
      assert Permitted(Parse(raw).value, range, sampled);
    }
  }

  lemma ReadsForward(raw: Raw, e: Expansion)
    requires Reads(raw, e)
    ensures e.after <= e.before <= e.after + HOUR
  {
  }

  ghost predicate Unreadable(raw: Raw) {
    raw.Dict? && forall e :: !Reads(raw, e)
  }

  /** The schema library's error text speaks of the length of the window, or of its ends. */
  ghost predicate TellsLength(raw: Raw)
    requires raw.Dict?
  {
    Contains(raw.message, "60 minutes") || Contains(raw.message, "exceeds")
  }

  ghost predicate TellsEnds(raw: Raw)
    requires raw.Dict?
  {
    Contains(raw.message, "before") || Contains(raw.message, "after")
  }

  /** When each label is given. */
  lemma LabelsExactlyWhen(raw: Raw, range: TimeRange, sampled: set<string>)
    ensures var why := Objection(raw, range, sampled);
      && (why == Some("event_ids_empty") <==> exists e :: Reads(raw, e) && e.ids == [])
      && (why == Some("event_ids_not_in_sample") <==> exists e :: Reads(raw, e) && !AllSampled(e, sampled))
      && (why == Some("window_before_case_range") <==>
            || (exists e :: Reads(raw, e) && e.ids != [] && AllSampled(e, sampled) && e.after < range.from)
            || (Unreadable(raw) && !TellsLength(raw) && TellsEnds(raw)))
      && (why == Some("window_after_case_range") <==>
            exists e ::
              Reads(raw, e) && e.ids != [] && AllSampled(e, sampled) && range.from <= e.after && range.to < e.before)
      && (why == Some("window_exceeds_60_minutes") <==> Unreadable(raw) && TellsLength(raw))
      && (why == Some("expansion_schema_invalid") <==> Unreadable(raw) && !TellsLength(raw) && !TellsEnds(raw))
  {
    hide Parse, Reads, IdSet, Contains, AllSampled;
    LabelsDiffer();
    if Parse(raw).Ok? {
      var e := Parse(raw).value;
      ParsesExactlyWhen(raw, e);
      SampledExactlyWhen(e, sampled);
      ReadsForward(raw, e);
      forall other | Reads(raw, other) ensures other == e {
        ParsesExactlyWhen(raw, other);
      }
    } else {
      DictsFail(raw);
      forall e ensures !Reads(raw, e) {
        ParsesExactlyWhen(raw, e);
      }
    }
  }

  lemma DictsFail(raw: Raw)
    requires Parse(raw).Err?
    ensures raw.Dict? && Parse(raw).exception == raw.message
  {
  }

  lemma LabelsDiffer()
    ensures |{"event_ids_empty", "event_ids_not_in_sample", "window_before_case_range", "window_after_case_range",
              "window_exceeds_60_minutes", "expansion_schema_invalid"}| == 6
  {
    assert |"event_ids_empty"| == 15 && |"event_ids_not_in_sample"| == 23 && |"window_before_case_range"| == 24
           && |"window_after_case_range"| == 23 && |"window_exceeds_60_minutes"| == 25
           && |"expansion_schema_invalid"| == 24;
    assert "event_ids_not_in_sample"[0] == 'e' && "window_after_case_range"[0] == 'w'
           && "window_before_case_range"[0] == 'w' && "expansion_schema_invalid"[0] == 'e';
  }

  /** No earlier item that is acceptable asks for the same ids. */
  ghost predicate AsksFirst(raws: seq<Raw>, i: nat, e: Expansion, range: TimeRange, sampled: set<string>) {
    forall j, other ::
      0 <= j < i && j < |raws| && Reads(raws[j], other) && Permitted(other, range, sampled) ==> !SameIds(other, e)
  }

  predicate SameIds(a: Expansion, b: Expansion) {
    (forall id :: id in a.ids ==> id in b.ids) && (forall id :: id in b.ids ==> id in a.ids)
  }

  /** Item i reads as e, which the case permits, and is the first to ask for its ids. */
  ghost predicate Leads(raws: seq<Raw>, i: nat, e: Expansion, range: TimeRange, sampled: set<string>) {
    i < |raws| && Reads(raws[i], e) && Permitted(e, range, sampled) && AsksFirst(raws, i, e, range, sampled)
  }

  ghost predicate NeverLeads(raws: seq<Raw>, i: nat, range: TimeRange, sampled: set<string>) {
    forall e :: !Leads(raws, i, e, range, sampled)
  }

  /** ks are the positions, in order, of all items that are the first to ask for their ids. */
  ghost predicate AreLeaders(raws: seq<Raw>, ks: seq<nat>, es: seq<Expansion>, range: TimeRange, sampled: set<string>) {
    && |ks| == |es|
    && (forall n :: 0 <= n < |ks| ==> Leads(raws, ks[n], es[n], range, sampled))
    && (forall m, n :: 0 <= m < n < |ks| ==> ks[m] < ks[n])
    && (forall i, e :: Leads(raws, i, e, range, sampled) ==> i in ks)
  }

  /** The expansions accepted are those of the first two items that the case permits and that ask for new ids. */
  ghost predicate AcceptsFirstTwo(raws: seq<Raw>, accepted: seq<Expansion>, range: TimeRange, sampled: set<string>) {
    exists ks, es ::
      && AreLeaders(raws, ks, es, range, sampled)
      && accepted == if |es| <= 2 then es else es[..2]
  }

  lemma AcceptedAreFirstTwo(raws: seq<Raw>, range: TimeRange, sampled: set<string>)
    ensures AcceptsFirstTwo(raws, Accepted(raws, range, sampled), range, sampled)
  {
    hide AreLeaders, Unique;
    var ks := UniqueLeads(raws, range, sampled);
  }

  lemma ReadsOnce(raw: Raw, e: Expansion, other: Expansion)
    requires Reads(raw, e) && Reads(raw, other)
    ensures e == other
  {
    ParsesExactlyWhen(raw, e);
    ParsesExactlyWhen(raw, other);
  }

  lemma SameIdsExactlyWhen(a: Expansion, b: Expansion)
    ensures SameIds(a, b) <==> IdSet(a) == IdSet(b)
  {
    assert forall id :: id in a.ids <==> id in IdSet(a);
    assert forall id :: id in b.ids <==> id in IdSet(b);
  }

  /** Whether an item leads depends only on the items up to it. */
  lemma LeadsLocally(raws: seq<Raw>, n: nat, range: TimeRange, sampled: set<string>)
    requires n <= |raws|
    ensures forall i, e :: 0 <= i < n ==>
              (Leads(raws[..n], i, e, range, sampled) <==> Leads(raws, i, e, range, sampled))
    ensures forall i: nat, e :: Leads(raws, i, e, range, sampled) ==> i < |raws|
  {
    hide Reads, Permitted, SameIds;
  }

  /** A permitted item leads exactly if none of the leaders before it asks for its ids. */
  lemma LeadsIfNotCovered(raws: seq<Raw>, ks: seq<nat>, es: seq<Expansion>, e: Expansion, range: TimeRange,
                          sampled: set<string>)
    requires raws != [] && AreLeaders(raws[..|raws| - 1], ks, es, range, sampled)
    requires Reads(raws[|raws| - 1], e) && Permitted(e, range, sampled)
    ensures Leads(raws, |raws| - 1, e, range, sampled) <==> !Covers(es, e)
  {
    hide Reads, Permitted, SameIds, IdSet;
    var last := |raws| - 1;
    var init := raws[..last];
    if Covers(es, e) {
      var d :| d in es && IdSet(d) == IdSet(e);
      var n :| 0 <= n < |es| && es[n] == d;
      SameIdsExactlyWhen(d, e);
      assert Leads(init, ks[n], d, range, sampled) && init[ks[n]] == raws[ks[n]];
    } else if j, other :|
      0 <= j < last && Reads(raws[j], other) && Permitted(other, range, sampled) && SameIds(other, e)
    {
      LeaderCovers(init, ks, es, j, other, range, sampled);
      SameIdsExactlyWhen(other, e);
    }
  }

  /** The ids of every permitted item are those of some leader. */
  lemma LeaderCovers(raws: seq<Raw>, ks: seq<nat>, es: seq<Expansion>, j: nat, other: Expansion, range: TimeRange,
                     sampled: set<string>)
    requires AreLeaders(raws, ks, es, range, sampled)
    requires j < |raws| && Reads(raws[j], other) && Permitted(other, range, sampled)
    ensures Covers(es, other)
  {
    hide Reads, Permitted, SameIds, IdSet;
    var i, d := FirstToAsk(raws, j, other, range, sampled);
    var n :| 0 <= n < |ks| && ks[n] == i;
    assert Leads(raws, i, es[n], range, sampled);
    ReadsOnce(raws[i], d, es[n]);
    SameIdsExactlyWhen(d, other);
    assert es[n] in es;
  }

  /** Whoever asks, some leader asks for the same ids no later. */
  lemma {:induction false} FirstToAsk(raws: seq<Raw>, j: nat, e: Expansion, range: TimeRange, sampled: set<string>)
    returns (i: nat, d: Expansion)
    requires j < |raws| && Reads(raws[j], e) && Permitted(e, range, sampled)
    ensures i <= j && Leads(raws, i, d, range, sampled) && SameIds(d, e)
    decreases j
  {
    hide Reads, Permitted;
    i, d := j, e;
    if !AsksFirst(raws, j, e, range, sampled) {
      var k, other :| 0 <= k < j && Reads(raws[k], other) && Permitted(other, range, sampled) && SameIds(other, e);
      i, d := FirstToAsk(raws, k, other, range, sampled);
    }
  }

  lemma {:induction false} UniqueLeads(raws: seq<Raw>, range: TimeRange, sampled: set<string>) returns (ks: seq<nat>)
    ensures AreLeaders(raws, ks, Unique(raws, range, sampled), range, sampled)
  {
    ks := [];
    if raws != [] {
      hide Reads, Permitted, Unique, Leads, Covers, AreLeaders;
      var last := |raws| - 1;
      ks := UniqueLeads(raws[..last], range, sampled);
      var before := Unique(raws[..last], range, sampled);
      OneMore(raws, last, range, sampled);
      assert raws[..last + 1] == raws;
      LastLeads(raws, ks, before, range, sampled);
      if Objection(raws[last], range, sampled) == None && !Covers(before, Parse(raws[last]).value) {
        OneMoreLeader(raws, ks, before, Some(Parse(raws[last]).value), range, sampled);
        ks := ks + [last];
      } else {
        OneMoreLeader(raws, ks, before, None, range, sampled);
      }
    }
  }

  /** The label of item i: none if it leads, a duplicate's if it is permitted all the same, else its objection's. */
  lemma EachLabel(raws: seq<Raw>, i: nat, range: TimeRange, sampled: set<string>)
    requires i < |raws|
    ensures var labels, labels' := Labels(raws[..i], range, sampled), Labels(raws[..i + 1], range, sampled);
            if !NeverLeads(raws[..i + 1], i, range, sampled) then labels' == labels
            else if Acceptable(raws[i], range, sampled) then labels' == labels + ["expansion_duplicate"]
            else Objection(raws[i], range, sampled).Some? &&
                 labels' == labels + [Objection(raws[i], range, sampled).value]
  {
    hide Reads, Permitted, Unique, Leads, Covers, AreLeaders, Labels, Acceptable;
    var upto := raws[..i + 1];
    assert upto[..i] == raws[..i] && upto[|upto| - 1] == raws[i];
    OneMore(raws, i, range, sampled);
    var ks := UniqueLeads(raws[..i], range, sampled);
    LastLeads(upto, ks, Unique(raws[..i], range, sampled), range, sampled);
    AcceptableExactlyWhen(raws[i], range, sampled);
    if Objection(raws[i], range, sampled) == None && !Covers(Unique(raws[..i], range, sampled), Parse(raws[i]).value) {
      assert Leads(upto, i, Parse(raws[i]).value, range, sampled);
    }
  }

  lemma OneMoreLeader(raws: seq<Raw>, ks: seq<nat>, es: seq<Expansion>, e: Option<Expansion>, range: TimeRange,
                      sampled: set<string>)
    requires raws != [] && AreLeaders(raws[..|raws| - 1], ks, es, range, sampled)
    requires match e
             case Some(d) => Leads(raws, |raws| - 1, d, range, sampled)
             case None => NeverLeads(raws, |raws| - 1, range, sampled)
    ensures match e
            case Some(d) => AreLeaders(raws, ks + [|raws| - 1], es + [d], range, sampled)
            case None => AreLeaders(raws, ks, es, range, sampled)
  {
    LeadsLocally(raws, |raws| - 1, range, sampled);
    assert forall n :: 0 <= n < |ks| ==> ks[n] < |raws| - 1 by {
      hide AsksFirst;
    }
    hide Leads;
  }

  /** The last item leads as what it parses to, if there is no objection and its ids are new; else not at all. */
  lemma LastLeads(raws: seq<Raw>, ks: seq<nat>, es: seq<Expansion>, range: TimeRange, sampled: set<string>)
    requires raws != [] && AreLeaders(raws[..|raws| - 1], ks, es, range, sampled)
    ensures var last := |raws| - 1;
            if Objection(raws[last], range, sampled) == None && !Covers(es, Parse(raws[last]).value)
            then Leads(raws, last, Parse(raws[last]).value, range, sampled)
            else NeverLeads(raws, last, range, sampled)
  {
    hide Reads, Permitted, Objection, Parse, SameIds, AsksFirst, Covers, AreLeaders;
    var last := |raws| - 1;
    AcceptableExactlyWhen(raws[last], range, sampled);
    if Objection(raws[last], range, sampled) == None {
      AcceptedIsPermitted(raws[last], range, sampled);
      var e := Parse(raws[last]).value;
      LeadsIfNotCovered(raws, ks, es, e, range, sampled);
      forall other | Leads(raws, last, other, range, sampled) ensures other == e {
        ReadsOnce(raws[last], other, e);
      }
    }
  }

  lemma AcceptedIsPermitted(raw: Raw, range: TimeRange, sampled: set<string>)
    requires Objection(raw, range, sampled) == None
    ensures Parse(raw).Ok? && Permitted(Parse(raw).value, range, sampled)
  {
    SampledExactlyWhen(Parse(raw).value, sampled);
  }

  // ----- validate_event_log_expansions -----

  /** The checks on one item, in the order they are made. */
  method Check(raw: Raw, range: TimeRange, sampled: set<string>) returns (why: Option<string>, e: Expansion)
    ensures why == Objection(raw, range, sampled)
    ensures why == None ==> Parse(raw) == Ok(e) && Reads(raw, e) && Permitted(e, range, sampled)
    ensures why == None <==> Acceptable(raw, range, sampled)
  {
    AcceptableExactlyWhen(raw, range, sampled);
    hide Reads, Acceptable;
    var parsed := Parse(raw);
    e := Expansion(0, 0, []);
    if parsed.Err? {
      return Some(SchemaLabel(parsed.exception)), e;
    }
    e := parsed.value;
    if e.ids == [] {
      return Some("event_ids_empty"), e;
    }
    if !(IdSet(e) <= sampled) {
      return Some("event_ids_not_in_sample"), e;
    }
    if e.after < range.from {
      return Some("window_before_case_range"), e;
    }
    if e.before > range.to {
      return Some("window_after_case_range"), e;
    }
    if e.before - e.after > HOUR {
      return Some("window_exceeds_60_minutes"), e;
    }
    return None, e;
  }

  function Keys(es: seq<Expansion>): set<set<string>> {
    if es == [] then {} else Keys(es[..|es| - 1]) + {IdSet(es[|es| - 1])}
  }

  lemma {:induction false} KeysCover(es: seq<Expansion>, e: Expansion)
    ensures IdSet(e) in Keys(es) <==> Covers(es, e)
  {
    if es != [] {
      KeysCover(es[..|es| - 1], e);
    }
  }

  lemma KeysGrow(es: seq<Expansion>, e: Expansion)
    ensures IdSet(e) in Keys(es) <==> Covers(es, e)
    ensures Keys(es + [e]) == Keys(es) + {IdSet(e)}
  {
    KeysCover(es, e);
    assert (es + [e])[..|es|] == es;
  }

  /** What reading item i adds to the accepted and refused lists. */
  lemma OneMore(raws: seq<Raw>, i: nat, range: TimeRange, sampled: set<string>)
    requires i < |raws|
    ensures var before, labels := Unique(raws[..i], range, sampled), Labels(raws[..i], range, sampled);
            var after, labels' := Unique(raws[..i + 1], range, sampled), Labels(raws[..i + 1], range, sampled);
            match Objection(raws[i], range, sampled)
            case Some(why) => after == before && labels' == labels + [why]
            case None =>
              var e := Parse(raws[i]).value;
              if Covers(before, e) then after == before && labels' == labels + ["expansion_duplicate"]
              else after == before + [e] && labels' == labels
  {
    assert raws[..i + 1][..i] == raws[..i];
    var v := ValidOnes(raws[..i], range, sampled);
    assert v + [] == v;
    if Objection(raws[i], range, sampled) == None {
      assert (v + [Parse(raws[i]).value])[..|v|] == v;
    }
  }

  /**
   * The accepted list is the first two permitted expansions with different id sets; every item
   * examined is accepted or labelled, and stopping early adds exactly one overflow label.
   */
  method ValidateExpansions(raws: seq<Raw>, range: TimeRange, sampled: set<string>)
    returns (accepted: seq<Expansion>, rejections: seq<string>, examined: nat)
    ensures accepted == Accepted(raws, range, sampled)
    ensures examined == Examined(raws, range, sampled)
    ensures rejections == Rejections(raws, range, sampled)
    ensures |accepted| + |rejections| == examined + if examined < |raws| then 1 else 0
    ensures AcceptsFirstTwo(raws, accepted, range, sampled)
  {
    hide *;
    AcceptedAreFirstTwo(raws, range, sampled);
    var seen: set<set<string>> := {};
    accepted, rejections, examined := [], [], 0;
    ReadingStarts(raws, range, sampled);
    while examined < |raws| && |accepted| < MAX_DETAIL_CALLS
      invariant examined <= |raws|
      invariant Reading(raws, examined, range, sampled, accepted, rejections)
      invariant |accepted| <= MAX_DETAIL_CALLS && seen == Keys(accepted)
    {
      ReadingStep(raws, examined, range, sampled, accepted, rejections);
      var why, e := Check(raws[examined], range, sampled);
      KeysGrow(accepted, e);
      examined := examined + 1;
      if why.Some? {
        rejections := rejections + [why.value];
      } else if IdSet(e) in seen {
        rejections := rejections + ["expansion_duplicate"];
      } else {
        seen := seen + {IdSet(e)};
        accepted := accepted + [e];
      }
    }
    ReadingEnds(raws, examined, range, sampled, accepted, rejections);
    if examined < |raws| && |raws| > MAX_DETAIL_CALLS {
      rejections := rejections + ["expansion_count_exceeded"];
    }
  }

  /** The loop's state after i items. */
  ghost predicate Reading(raws: seq<Raw>, i: nat, range: TimeRange, sampled: set<string>,
                          accepted: seq<Expansion>, rejections: seq<string>)
  {
    && i <= |raws|
    && accepted == Unique(raws[..i], range, sampled) && |accepted| <= MAX_DETAIL_CALLS
    && rejections == Labels(raws[..i], range, sampled)
    && Examined(raws[..i], range, sampled) == i
  }

  lemma ReadingStarts(raws: seq<Raw>, range: TimeRange, sampled: set<string>)
    ensures Reading(raws, 0, range, sampled, [], []) && Keys([]) == {}
  {
    assert raws[..0] == [];
  }

  lemma ReadingStep(raws: seq<Raw>, i: nat, range: TimeRange, sampled: set<string>,
                    accepted: seq<Expansion>, rejections: seq<string>)
    requires i < |raws| && Reading(raws, i, range, sampled, accepted, rejections) && |accepted| < MAX_DETAIL_CALLS
    ensures match Objection(raws[i], range, sampled)
            case Some(why) => Reading(raws, i + 1, range, sampled, accepted, rejections + [why])
            case None =>
              var e := Parse(raws[i]).value;
              if Covers(accepted, e)
              then Reading(raws, i + 1, range, sampled, accepted, rejections + ["expansion_duplicate"])
              else Reading(raws, i + 1, range, sampled, accepted + [e], rejections)
  {
    OneMore(raws, i, range, sampled);
    assert raws[..i + 1][..i] == raws[..i];
  }

  lemma ReadingEnds(raws: seq<Raw>, i: nat, range: TimeRange, sampled: set<string>,
                    accepted: seq<Expansion>, rejections: seq<string>)
    requires Reading(raws, i, range, sampled, accepted, rejections)
    requires i == |raws| || |accepted| == MAX_DETAIL_CALLS
    ensures accepted == Accepted(raws, range, sampled)
    ensures Examined(raws, range, sampled) == i
    ensures rejections + (if i < |raws| then ["expansion_count_exceeded"] else []) == Rejections(raws, range, sampled)
    ensures |accepted| + |rejections| == i
  {
    EachItemIsCounted(raws[..i], range, sampled);
    if i < |raws| {
      UniqueGrows(raws, i, range, sampled);
      ExaminedStops(raws, i, range, sampled);
    } else {
      assert raws[..i] == raws;
    }
  }

  lemma OneMoreCounted(raws: seq<Raw>, i: nat, range: TimeRange, sampled: set<string>)
    requires i < |raws|
    ensures |Unique(raws[..i + 1], range, sampled)| + |Labels(raws[..i + 1], range, sampled)| ==
            |Unique(raws[..i], range, sampled)| + |Labels(raws[..i], range, sampled)| + 1
  {
    hide *;
    OneMore(raws, i, range, sampled);
  }

  lemma {:induction false} EachItemIsCounted(raws: seq<Raw>, range: TimeRange, sampled: set<string>)
    ensures |Unique(raws, range, sampled)| + |Labels(raws, range, sampled)| == |raws|
  {
    if raws == [] {
    } else {
      hide *;
      EachItemIsCounted(raws[..|raws| - 1], range, sampled);
      OneMoreCounted(raws, |raws| - 1, range, sampled);
      assert raws[..|raws| - 1 + 1] == raws;
    }
  }

  /** Reading stops as soon as, and not before, the accepted list is full. */
  lemma {:induction false} ExaminedIsLeast(raws: seq<Raw>, range: TimeRange, sampled: set<string>, m: nat)
    requires m < |raws|
    ensures m < Examined(raws, range, sampled) <==> |Unique(raws[..m], range, sampled)| < MAX_DETAIL_CALLS
    decreases |raws|
  {
    var init := raws[..|raws| - 1];
    if m < |init| {
      assert init[..m] == raws[..m];
      ExaminedIsLeast(init, range, sampled, m);
    } else {
      assert raws[..m] == init;
      var n := Examined(init, range, sampled);
      if n < |init| {
        ExaminedIsLeast(init, range, sampled, n);
        UniqueGrows(init, n, range, sampled);
      }
    }
  }

  lemma {:induction false} ExaminedStops(raws: seq<Raw>, i: nat, range: TimeRange, sampled: set<string>)
    requires i <= |raws|
    requires Examined(raws[..i], range, sampled) == i && |Unique(raws[..i], range, sampled)| >= MAX_DETAIL_CALLS
    ensures Examined(raws, range, sampled) == i
    decreases |raws|
  {
    if i < |raws| {
      assert raws[..|raws| - 1][..i] == raws[..i];
      ExaminedStops(raws[..|raws| - 1], i, range, sampled);
    } else {
      assert raws[..i] == raws;
    }
  }

  lemma {:induction false} UniqueGrows(raws: seq<Raw>, i: nat, range: TimeRange, sampled: set<string>)
    requires i <= |raws|
    ensures Unique(raws[..i], range, sampled) <= Unique(raws, range, sampled)
    decreases |raws|
  {
    if i < |raws| {
      var init := raws[..|raws| - 1];
      assert init[..i] == raws[..i];
      UniqueGrows(init, i, range, sampled);
      var v := ValidOnes(init, range, sampled);
      var last := raws[|raws| - 1];
      if Objection(last, range, sampled) == None {
        assert (v + [Parse(last).value])[..|v|] == v;
      } else {
        assert ValidOnes(raws, range, sampled) == v;
      }
    } else {
      assert raws[..i] == raws;
    }
  }

  /** Accepted expansions are permitted, at most two, and no two ask for the same ids. */
  lemma AcceptedArePermitted(raws: seq<Raw>, range: TimeRange, sampled: set<string>)
    ensures var es := Accepted(raws, range, sampled);
            && |es| <= MAX_DETAIL_CALLS
            && (forall e :: e in es ==> Permitted(e, range, sampled))
            && forall i, j :: 0 <= i < j < |es| ==> IdSet(es[i]) != IdSet(es[j])
  {
    FirstPerIdSetIsUnique(ValidOnes(raws, range, sampled));
    var r, es := Unique(raws, range, sampled), Accepted(raws, range, sampled);
    assert forall i :: 0 <= i < |es| ==> es[i] == r[i] && r[i] in r;
  }

  lemma {:induction false} FirstPerIdSetIsUnique(es: seq<Expansion>)
    ensures var r := FirstPerIdSet(es);
            && (forall i, j :: 0 <= i < j < |r| ==> IdSet(r[i]) != IdSet(r[j]))
            && forall e :: e in es ==> Covers(r, e)
  {
    if es != [] {
      var r := FirstPerIdSet(es[..|es| - 1]);
      FirstPerIdSetIsUnique(es[..|es| - 1]);
      forall e | e in es ensures Covers(FirstPerIdSet(es), e) {
        if e == es[|es| - 1] {
          assert e in FirstPerIdSet(es) || Covers(r, e);
        } else {
          assert e in es[..|es| - 1];
          var other :| other in r && IdSet(other) == IdSet(e);
          assert other in FirstPerIdSet(es);
        }
      }
      if !Covers(r, es[|es| - 1]) {
        forall i | 0 <= i < |r| ensures IdSet(r[i]) != IdSet(es[|es| - 1]) {
          assert r[i] in r;
        }
      }
    }
  }
}
