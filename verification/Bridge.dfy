/** The adapter in front of the collection bridge: policy checks, fixed arguments, and the calls it really makes. */
module Bridge {
  import opened Common
  import opened Catalog
  import opened Json
  import opened Sequences
  import opened Expansions

  datatype Settings = Settings(maxSteps: nat, maxEvidenceChars: int, maxToolResultChars: nat, orgId: string)

  datatype Arg = Text(s: string) | Number(n: int) | Time(t: Instant)

  /** One call that reached the bridge. */
  datatype Call = Call(tool: string, arguments: map<string, Arg>)

  datatype Envelope = Envelope(ok: bool, data: Json, pagination: Json)

  datatype Fault = Deadline | Fault(kind: string)

  datatype Outcome<+T> = Returned(value: T) | Threw(fault: Fault)

  /** A tool table: each tool with the argument names it declares. */
  type ToolTable = map<string, set<string>>

  /** What the outside does if asked: listing the tools, and answering the call. */
  datatype Discovery = Listed(tools: ToolTable) | NotListed(kind: string)
  datatype Reply = NoAnswer | Raised(kind: string) | Answer(envelope: Envelope)
  datatype Wire = Wire(discovery: Discovery, reply: Reply)

  /** The adapter's state: its cached tool table and every call made so far. */
  datatype Session = Session(tools: Option<ToolTable>, calls: seq<Call>)

  const POLICY := Fault("MCPPolicyError")

  function OrElse(a: string, b: string): string {
    if a == "" then b else a
  }

  /** The organisation every call of a request is made for. */
  function EffectiveOrg(req: Request, cfg: Settings): string {
    OrElse(OrElse(req.orgId, cfg.orgId), cfg.orgId)
  }

  // ----- what each operation does to the session -----

  function Loaded(s: Session, d: Discovery): (Session, Outcome<ToolTable>) {
    match s.tools
    case Some(tools) => (s, Returned(tools))
    case None =>
      match d
      case Listed(tools) => (s.(tools := Some(tools)), Returned(tools))
      case NotListed(kind) => (s, Threw(Fault(kind)))
  }

  function Answered(reply: Reply): Outcome<Envelope> {
    match reply
    case NoAnswer => Threw(Deadline)
    case Raised(kind) => Threw(Fault(kind))
    case Answer(envelope) => Returned(envelope)
  }

  /** Look the tool up, then call it; an unlisted tool is a policy error and no call is made. */
  function Called(s: Session, tool: string, arguments: ToolTable -> map<string, Arg>, wire: Wire)
    : (Session, Outcome<Envelope>)
  {
    match Loaded(s, wire.discovery)
    case (s1, Threw(fault)) => (s1, Threw(fault))
    case (s1, Returned(tools)) =>
      if tool !in tools then (s1, Threw(POLICY))
      else (s1.(calls := s1.calls + [Call(tool, arguments(tools))]), Answered(wire.reply))
  }

  function StaticArguments(tool: string, declared: set<string>, client: string, org: string, range: TimeRange,
                           limit: int, offset: int): map<string, Arg>
    requires tool in WINDOWS_TOOLS
  {
    var base := map["client_id" := Text(client), "org_id" := Text(org)];
    var dated := if WINDOWS_TOOLS[tool] && "DateAfter" in declared && "DateBefore" in declared
                 then base["DateAfter" := Time(range.from)]["DateBefore" := Time(range.to)] else base;
    if "limit" in declared && "offset" in declared
    then dated["limit" := Number(Clamp(limit, 1, 50))]["offset" := Number(if offset < 0 then 0 else offset)] else dated
  }

  function Clamp(n: int, low: int, high: int): int
    requires low <= high
  {
    if n < low then low else if n > high then high else n
  }

  function CustomArguments(artifact: string, client: string, org: string): map<string, Arg> {
    map["client_id" := Text(client), "org_id" := Text(org), "artifact" := Text(artifact),
        "limit" := Number(50), "offset" := Number(0)]
  }

  function TriageArguments(client: string, org: string, range: TimeRange): map<string, Arg> {
    map["client_id" := Text(client), "org_id" := Text(org),
        "DateAfter" := Time(range.from), "DateBefore" := Time(range.to),
        "profile_id" := Text("security_core"), "max_rows" := Number(100),
        "fields" := Text("EventTime,Computer,Channel,Provider,EventID")]
  }

  function DetailArguments(client: string, org: string, e: Expansion): map<string, Arg> {
    var base := map["client_id" := Text(client), "org_id" := Text(org),
                    "DateAfter" := Time(e.after), "DateBefore" := Time(e.before), "max_rows" := Number(50)];
    if e.ids == [] then base else base["event_ids" := Text(Joined(e.ids))]
  }

  function VerifyArguments(client: string, org: string): map<string, Arg> {
    map["search" := Text("^" + client + "$"), "limit" := Number(5), "org_id" := Text(org)]
  }

  /** A result too long for the settings is replaced by its preview. */
  function Truncated(envelope: Envelope, maxChars: nat): Envelope {
    var text := Dump(envelope.data);
    if |text| <= maxChars then envelope
    else envelope.(data := Obj([Field("truncated", Bool(true)), Field("original_chars", Num(|text|)),
                                Field("preview", Str(Prefix(text, maxChars)))]))
  }

  function TruncatedOutcome(r: (Session, Outcome<Envelope>), maxChars: nat): (Session, Outcome<Envelope>) {
    match r
    case (s, Returned(envelope)) => (s, Returned(Truncated(envelope, maxChars)))
    case (s, Threw(fault)) => (s, Threw(fault))
  }

  /** `len(preview)` is taken of data marked truncated with True: text, lists and dicts have a length. */
  predicate Loggable(data: Json) {
    data.Obj? && Get(data, "truncated", Null) == Bool(true) ==>
      var preview := Get(data, "preview", Str(""));
      preview.Str? || preview.Arr? || preview.Obj?
  }

  /** Logging an answer, which raises if its metadata cannot be taken. */
  function Logged(r: Outcome<Envelope>): Outcome<Envelope> {
    if r.Returned? && !Loggable(r.value.data) then Threw(Fault("TypeError")) else r
  }

  function LoggedOutcome(r: (Session, Outcome<Envelope>)): (Session, Outcome<Envelope>) {
    (r.0, Logged(r.1))
  }

  function Collected(s: Session, cfg: Settings, tool: string, client: string, org: string, range: TimeRange,
                     limit: int, offset: int, names: set<string>, wire: Wire): (Session, Outcome<Envelope>) {
    var org := OrElse(org, cfg.orgId);
    if CUSTOM_PREFIX <= tool then
      if tool !in names then (s, Threw(POLICY))
      else LoggedOutcome(TruncatedOutcome(
        Called(s, COLLECT_CUSTOM, _ => CustomArguments(tool[|CUSTOM_PREFIX|..], client, org), wire),
        cfg.maxToolResultChars))
    else if tool !in WINDOWS_TOOLS || tool == EVENT_LOGS then (s, Threw(POLICY))
    else LoggedOutcome(TruncatedOutcome(
      Called(s, tool,
             (tools: ToolTable) =>
               StaticArguments(tool, if tool in tools then tools[tool] else {}, client, org, range, limit, offset),
             wire),
      cfg.maxToolResultChars))
  }

  /** A failed envelope of a typed event-log helper is an error; otherwise only the fixed metadata fields are kept. */
  function Summarised(r: (Session, Outcome<Envelope>), withEventIds: bool): (Session, Outcome<Json>) {
    match r
    case (s, Threw(fault)) => (s, Threw(fault))
    case (s, Returned(envelope)) =>
      if !envelope.ok then (s, Threw(POLICY)) else (s, Returned(Summary(envelope.data, withEventIds)))
  }

  function Summary(data: Json, withEventIds: bool): Json {
    Obj([Field("rows", Get(data, "rows", Num(0))), Field("original_rows", Get(data, "original_rows", Num(0))),
         Field("returned_rows", Get(data, "returned_rows", Num(0))),
         Field("truncated", Bool(Truthy(Get(data, "truncated", Null))))] +
        if withEventIds then [Field("event_ids", Get(data, "sampled_event_ids", Arr([])))] else [])
  }

  function Triaged(s: Session, cfg: Settings, client: string, org: string, range: TimeRange, wire: Wire)
    : (Session, Outcome<Json>)
  {
    var r := Called(s, EVENT_LOGS_TRIAGE, _ => TriageArguments(client, OrElse(org, cfg.orgId), range), wire);
    Summarised(LoggedOutcome(r), true)
  }

  function Detailed(s: Session, cfg: Settings, client: string, org: string, e: Expansion, wire: Wire)
    : (Session, Outcome<Json>)
  {
    var r := Called(s, EVENT_LOGS_DETAIL, _ => DetailArguments(client, OrElse(org, cfg.orgId), e), wire);
    Summarised(LoggedOutcome(r), false)
  }

  /** The first of the usual list-valued keys that holds something, or the value itself as the only row. */
  function Rows(data: Json): seq<Json> {
    var rows :=
      if !data.Obj? then data
      else if Truthy(Get(data, "clients", Null)) then Get(data, "clients", Null)
      else if Truthy(Get(data, "items", Null)) then Get(data, "items", Null)
      else if Truthy(Get(data, "rows", Null)) then Get(data, "rows", Null)
      else Arr([data]);
    if rows.Arr? then rows.items else []
  }

  predicate Names(row: Json, client: string) {
    row.Obj? &&
    var found := if Truthy(Get(row, "client_id", Null)) then Get(row, "client_id", Null)
                 else if Truthy(Get(row, "ClientId", Null)) then Get(row, "ClientId", Null)
                 else Get(row, "client_id", Null);
    found == Str(client)
  }

  /** The target is verified only by a successful answer with a row for exactly this client. */
  function Verified(s: Session, cfg: Settings, client: string, org: string, wire: Wire): (Session, Outcome<Json>) {
    match LoggedOutcome(Called(s, "list_clients", _ => VerifyArguments(client, org), wire))
    case (s1, Threw(fault)) => (s1, Threw(fault))
    case (s1, Returned(envelope)) =>
      if !envelope.ok then (s1, Threw(POLICY))
      else match FirstNamed(Rows(envelope.data), client)
        case Some(row) => (s1, Returned(row))
        case None => (s1, Threw(POLICY))
  }

  function FirstNamed(rows: seq<Json>, client: string): (r: Option<Json>)
    ensures r.Some? ==> r.value in rows && Names(r.value, client)
    ensures r.None? ==> forall row :: row in rows ==> !Names(row, client)
  {
    if rows == [] then None
    else if Names(rows[0], client) then Some(rows[0])
    else FirstNamed(rows[1..], client)
  }

  // ----- what each operation sends and answers, value by value -----

  /** The tool table the adapter works with: the one it has, else the one the bridge lists. */
  function TableOf(s: Session, wire: Wire): Option<ToolTable> {
    if s.tools.Some? then s.tools else if wire.discovery.Listed? then Some(wire.discovery.tools) else None
  }

  predicate Offers(s: Session, wire: Wire, tool: string) {
    TableOf(s, wire).Some? && tool in TableOf(s, wire).value
  }

  /** The table is kept, and exactly one call is made, for this tool, if the bridge offers it; otherwise none is. */
  ghost predicate CallsOnce(s: Session, s': Session, wire: Wire, tool: string) {
    && s'.tools == TableOf(s, wire)
    && |s'.calls| == |s.calls| + (if Offers(s, wire, tool) then 1 else 0)
    && s.calls == s'.calls[..|s.calls|]
    && (Offers(s, wire, tool) ==> s'.calls[|s.calls|].tool == tool)
  }

  /** A detail call: the window, at most fifty rows, and ids that can be read back from their text. */
  ghost predicate AsksForDetail(call: Call, client: string, org: string, e: Expansion) {
    var args := call.arguments;
    && call.tool == EVENT_LOGS_DETAIL
    && args.Keys == {"client_id", "org_id", "DateAfter", "DateBefore", "max_rows"} +
                    (if e.ids == [] then {} else {"event_ids"})
    && args["client_id"] == Text(client) && args["org_id"] == Text(org)
    && args["DateAfter"] == Time(e.after) && args["DateBefore"] == Time(e.before) && args["max_rows"] == Number(50)
    && (e.ids != [] ==> args["event_ids"].Text? && Split(args["event_ids"].s) == Pieces(e.ids))
  }

  /** A triage call: the fixed profile and fields over the case range, at most a hundred rows. */
  ghost predicate AsksForTriage(call: Call, client: string, org: string, range: TimeRange) {
    var args := call.arguments;
    && call.tool == EVENT_LOGS_TRIAGE
    && args.Keys == {"client_id", "org_id", "DateAfter", "DateBefore", "profile_id", "max_rows", "fields"}
    && args["client_id"] == Text(client) && args["org_id"] == Text(org)
    && args["DateAfter"] == Time(range.from) && args["DateBefore"] == Time(range.to)
    && args["max_rows"] == Number(100) && args["profile_id"] == Text("security_core")
    && args["fields"] == Text("EventTime,Computer,Channel,Provider,EventID")
  }

  /** A call for a signed artifact, by its name without the prefix, first fifty rows. */
  ghost predicate AsksForArtifact(call: Call, client: string, org: string, tool: string) {
    var args := call.arguments;
    && call.tool == COLLECT_CUSTOM
    && args.Keys == {"client_id", "org_id", "artifact", "limit", "offset"}
    && args["client_id"] == Text(client) && args["org_id"] == Text(org)
    && args["artifact"].Text? && CUSTOM_PREFIX + args["artifact"].s == tool
    && args["limit"] == Number(50) && args["offset"] == Number(0)
  }

  /** A call of a fixed helper: only arguments it declares, the case range if it takes one, and bounded paging. */
  ghost predicate AsksHelper(call: Call, declared: set<string>, client: string, org: string, range: TimeRange,
                             limit: int, offset: int)
  {
    var args := call.arguments;
    && call.tool in WINDOWS_TOOLS && call.tool != EVENT_LOGS
    && (var dates, paging := {"DateAfter", "DateBefore"}, {"limit", "offset"};
        args.Keys == {"client_id", "org_id"} + (if WINDOWS_TOOLS[call.tool] && dates <= declared then dates else {})
                     + (if paging <= declared then paging else {}))
    && args["client_id"] == Text(client) && args["org_id"] == Text(org)
    && ("DateAfter" in args ==> args["DateAfter"] == Time(range.from) && args["DateBefore"] == Time(range.to))
    && ("limit" in args ==>
          Paged(args["limit"], limit, 1, 50) && args["offset"] == Number(if offset > 0 then offset else 0))
  }

  /** The number itself where it lies within the bounds, else the nearer bound. */
  predicate Paged(arg: Arg, n: int, low: int, high: int) {
    && arg.Number? && low <= arg.n <= high
    && (low <= n <= high ==> arg.n == n) && (n < low ==> arg.n == low) && (n > high ==> arg.n == high)
  }

  /** A search for exactly this client: the pattern is anchored at both ends. */
  ghost predicate AsksForClient(call: Call, client: string, org: string) {
    var args := call.arguments;
    && call.tool == "list_clients"
    && args.Keys == {"search", "limit", "org_id"}
    && args["limit"] == Number(5) && args["org_id"] == Text(org)
    && args["search"].Text? && args["search"].s == ['^'] + client + ['$']
  }

  /** The metadata kept of an event-log answer. */
  ghost predicate IsMetadata(kept: Json, data: Json, withEventIds: bool) {
    && kept.Obj? && |kept.fields| == (if withEventIds then 5 else 4)
    && Get(kept, "rows", Null) == Get(data, "rows", Num(0))
    && Get(kept, "original_rows", Null) == Get(data, "original_rows", Num(0))
    && Get(kept, "returned_rows", Null) == Get(data, "returned_rows", Num(0))
    && Get(kept, "truncated", Null) == Bool(Truthy(Get(data, "truncated", Null)))
    && (withEventIds ==> Get(kept, "event_ids", Null) == Get(data, "sampled_event_ids", Arr([])))
  }

  /** An event-log answer: returned exactly if the call was made, succeeded and could be logged. */
  ghost predicate AnswersMetadata(s: Session, wire: Wire, tool: string, r: Outcome<Json>, withEventIds: bool) {
    && (r.Returned? <==>
          Offers(s, wire, tool) && wire.reply.Answer? && wire.reply.envelope.ok && Loggable(wire.reply.envelope.data))
    && (r == Threw(Deadline) <==> Offers(s, wire, tool) && wire.reply.NoAnswer?)
    && (r.Returned? ==> IsMetadata(r.value, wire.reply.envelope.data, withEventIds))
  }

  /** Data within the limit is kept; longer data is replaced by a marked preview of exactly that length. */
  ghost predicate KeptOrPreviewed(kept: Json, data: Json, maxChars: nat) {
    if |Dump(data)| <= maxChars then kept == data
    else
      && kept.Obj? && Get(kept, "truncated", Null) == Bool(true)
      && Get(kept, "original_chars", Null) == Num(|Dump(data)|)
      && Get(kept, "preview", Null).Str? && Get(kept, "preview", Null).s == Dump(data)[..maxChars]
  }

  /** A collected answer: what the bridge said, with its data kept or previewed, unless that cannot be logged. */
  ghost predicate AnswersKept(s: Session, wire: Wire, tool: string, r: Outcome<Envelope>, maxChars: nat) {
    && (r.Returned? <==>
          && Offers(s, wire, tool) && wire.reply.Answer?
          && (|Dump(wire.reply.envelope.data)| > maxChars || Loggable(wire.reply.envelope.data)))
    && (r == Threw(Deadline) <==> Offers(s, wire, tool) && wire.reply.NoAnswer?)
    && (r.Returned? ==>
          && r.value.ok == wire.reply.envelope.ok && r.value.pagination == wire.reply.envelope.pagination
          && KeptOrPreviewed(r.value.data, wire.reply.envelope.data, maxChars))
  }

  ghost predicate DetailGoes(s: Session, s': Session, r: Outcome<Json>, client: string, org: string, e: Expansion,
                             wire: Wire)
  {
    && CallsOnce(s, s', wire, EVENT_LOGS_DETAIL)
    && (|s'.calls| > |s.calls| ==> AsksForDetail(s'.calls[|s.calls|], client, org, e))
    && AnswersMetadata(s, wire, EVENT_LOGS_DETAIL, r, false)
  }

  ghost predicate TriageGoes(s: Session, s': Session, r: Outcome<Json>, client: string, org: string, range: TimeRange,
                             wire: Wire)
  {
    && CallsOnce(s, s', wire, EVENT_LOGS_TRIAGE)
    && (|s'.calls| > |s.calls| ==> AsksForTriage(s'.calls[|s.calls|], client, org, range))
    && AnswersMetadata(s, wire, EVENT_LOGS_TRIAGE, r, true)
  }

  ghost predicate ArtifactGoes(s: Session, s': Session, r: Outcome<Envelope>, client: string, org: string, tool: string,
                               names: set<string>, wire: Wire, maxChars: nat)
  {
    if tool !in names then s' == s && r == Threw(POLICY)
    else
      && CallsOnce(s, s', wire, COLLECT_CUSTOM)
      && (|s'.calls| > |s.calls| ==> AsksForArtifact(s'.calls[|s.calls|], client, org, tool))
      && AnswersKept(s, wire, COLLECT_CUSTOM, r, maxChars)
  }

  ghost predicate HelperGoes(s: Session, s': Session, r: Outcome<Envelope>, client: string, org: string, tool: string,
                             range: TimeRange, limit: int, offset: int, wire: Wire, maxChars: nat)
  {
    if tool !in WINDOWS_TOOLS || tool == EVENT_LOGS then s' == s && r == Threw(POLICY)
    else
      && CallsOnce(s, s', wire, tool)
      && (|s'.calls| > |s.calls| ==>
            AsksHelper(s'.calls[|s.calls|], TableOf(s, wire).value[tool], client, org, range, limit, offset))
      && AnswersKept(s, wire, tool, r, maxChars)
  }

  ghost predicate CollectGoes(s: Session, s': Session, r: Outcome<Envelope>, client: string, org: string, tool: string,
                              range: TimeRange, limit: int, offset: int, names: set<string>, wire: Wire, maxChars: nat)
  {
    if CUSTOM_PREFIX <= tool then ArtifactGoes(s, s', r, client, org, tool, names, wire, maxChars)
    else HelperGoes(s, s', r, client, org, tool, range, limit, offset, wire, maxChars)
  }

  ghost predicate VerifyGoes(s: Session, s': Session, r: Outcome<Json>, client: string, org: string, wire: Wire) {
    && CallsOnce(s, s', wire, "list_clients")
    && (|s'.calls| > |s.calls| ==> AsksForClient(s'.calls[|s.calls|], client, org))
    && (r.Returned? <==>
          && Offers(s, wire, "list_clients") && wire.reply.Answer? && wire.reply.envelope.ok
          && Loggable(wire.reply.envelope.data)
          && exists row :: row in Rows(wire.reply.envelope.data) && Names(row, client))
    && (r.Returned? ==> r.value in Rows(wire.reply.envelope.data) && Names(r.value, client))
  }

  lemma DetailedGoes(s: Session, cfg: Settings, client: string, org: string, e: Expansion, wire: Wire)
    ensures var (s', r) := Detailed(s, cfg, client, org, e, wire);
            DetailGoes(s, s', r, client, if org == "" then cfg.orgId else org, e, wire)
  {
    hide DetailArguments, Summary, IsMetadata, AsksForDetail;
    DetailAsks(client, OrElse(org, cfg.orgId), e);
    if wire.reply.Answer? {
      SummaryIsMetadata(wire.reply.envelope.data, false);
    }
  }

  lemma DetailAsks(client: string, org: string, e: Expansion)
    ensures AsksForDetail(Call(EVENT_LOGS_DETAIL, DetailArguments(client, org, e)), client, org, e)
  {
    ArgumentNamesDiffer();
    if e.ids != [] {
      JoinedReadsBack(e.ids);
    }
    hide Joined, Split, Pieces;
  }

  lemma ArgumentNamesDiffer()
    ensures |{"client_id", "org_id", "DateAfter", "DateBefore", "max_rows", "event_ids", "profile_id", "fields",
              "artifact", "limit", "offset"}| == 11
  {
    assert |"client_id"| == 9 && "client_id"[0] == 'c' && |"org_id"| == 6 && "org_id"[1] == 'r' && |"offset"| == 6
           && "offset"[1] == 'f' && |"DateAfter"| == 9 && "DateAfter"[0] == 'D' && |"DateBefore"| == 10
           && "DateBefore"[0] == 'D' && |"max_rows"| == 8 && "max_rows"[0] == 'm' && |"event_ids"| == 9
           && "event_ids"[0] == 'e' && |"profile_id"| == 10 && "profile_id"[0] == 'p' && |"fields"| == 6
           && "fields"[0] == 'f' && |"artifact"| == 8 && "artifact"[0] == 'a' && |"limit"| == 5;
  }

  lemma SummaryIsMetadata(data: Json, withEventIds: bool)
    ensures IsMetadata(Summary(data, withEventIds), data, withEventIds)
  {
    var kept := Summary(data, withEventIds);
    assert "rows"[0] == 'r' && |"rows"| == 4 && |"original_rows"| == 13 && "original_rows"[0] == 'o'
           && |"returned_rows"| == 13 && "returned_rows"[0] == 'r' && |"truncated"| == 9 && "truncated"[0] == 't'
           && |"event_ids"| == 9 && "event_ids"[0] == 'e';
    LookupFinds(kept.fields, "rows", Null, 0);
    LookupFinds(kept.fields, "original_rows", Null, 1);
    LookupFinds(kept.fields, "returned_rows", Null, 2);
    LookupFinds(kept.fields, "truncated", Null, 3);
    if withEventIds {
      LookupFinds(kept.fields, "event_ids", Null, 4);
    }
  }

  lemma TriagedGoes(s: Session, cfg: Settings, client: string, org: string, range: TimeRange, wire: Wire)
    ensures var (s', r) := Triaged(s, cfg, client, org, range, wire);
            TriageGoes(s, s', r, client, if org == "" then cfg.orgId else org, range, wire)
  {
    hide TriageArguments, Summary, IsMetadata, AsksForTriage;
    TriageAsks(client, OrElse(org, cfg.orgId), range);
    if wire.reply.Answer? {
      SummaryIsMetadata(wire.reply.envelope.data, true);
    }
  }

  lemma TriageAsks(client: string, org: string, range: TimeRange)
    ensures AsksForTriage(Call(EVENT_LOGS_TRIAGE, TriageArguments(client, org, range)), client, org, range)
  {
    ArgumentNamesDiffer();
  }

  lemma CollectedGoes(s: Session, cfg: Settings, tool: string, client: string, org: string, range: TimeRange,
                      limit: int, offset: int, names: set<string>, wire: Wire)
    ensures var (s', r) := Collected(s, cfg, tool, client, org, range, limit, offset, names, wire);
            CollectGoes(s, s', r, client, if org == "" then cfg.orgId else org, tool, range, limit, offset, names, wire,
                        cfg.maxToolResultChars)
  {
    hide StaticArguments, CustomArguments, AsksForArtifact, AsksHelper, CallsOnce, AnswersKept, LoggedOutcome,
      TruncatedOutcome, Called;
    var own, max := OrElse(org, cfg.orgId), cfg.maxToolResultChars;
    if CUSTOM_PREFIX <= tool {
      if tool in names {
        var name := tool[|CUSTOM_PREFIX|..];
        ArtifactAsks(client, own, tool);
        CalledOnce(s, COLLECT_CUSTOM, _ => CustomArguments(name, client, own), wire, max);
      }
    } else if tool in WINDOWS_TOOLS && tool != EVENT_LOGS {
      if Offers(s, wire, tool) {
        HelperAsks(tool, TableOf(s, wire).value[tool], client, own, range, limit, offset);
      }
      CalledOnce(s, tool,
                 (tools: ToolTable) =>
                   StaticArguments(tool, if tool in tools then tools[tool] else {}, client, own, range, limit, offset),
                 wire, max);
    }
  }

  lemma CalledOnce(s: Session, tool: string, arguments: ToolTable -> map<string, Arg>, wire: Wire, maxChars: nat)
    ensures var (s', r) := LoggedOutcome(TruncatedOutcome(Called(s, tool, arguments, wire), maxChars));
            && CallsOnce(s, s', wire, tool) && AnswersKept(s, wire, tool, r, maxChars)
            && (|s'.calls| > |s.calls| ==>
                  Offers(s, wire, tool) && s'.calls[|s.calls|] == Call(tool, arguments(TableOf(s, wire).value)))
  {
    hide Truncated, KeptOrPreviewed, Dump, Loggable;
    if wire.reply.Answer? {
      TruncatedIsKept(wire.reply.envelope, maxChars);
    }
  }

  lemma ArtifactAsks(client: string, org: string, tool: string)
    requires CUSTOM_PREFIX <= tool
    ensures var name := tool[|CUSTOM_PREFIX|..];
            AsksForArtifact(Call(COLLECT_CUSTOM, CustomArguments(name, client, org)), client, org, tool)
  {
    ArgumentNamesDiffer();
    assert CUSTOM_PREFIX + tool[|CUSTOM_PREFIX|..] == tool;
  }

  lemma HelperAsks(tool: string, declared: set<string>, client: string, org: string, range: TimeRange,
                   limit: int, offset: int)
    requires tool in WINDOWS_TOOLS && tool != EVENT_LOGS
    ensures AsksHelper(Call(tool, StaticArguments(tool, declared, client, org, range, limit, offset)), declared,
                       client, org, range, limit, offset)
  {
    hide StaticArguments, Clamp, Paged;
    HelperKeys(tool, declared, client, org, range, limit, offset);
    HelperValues(tool, declared, client, org, range, limit, offset);
  }

  lemma HelperKeys(tool: string, declared: set<string>, client: string, org: string, range: TimeRange,
                   limit: int, offset: int)
    requires tool in WINDOWS_TOOLS
    ensures var dates, paging := {"DateAfter", "DateBefore"}, {"limit", "offset"};
            StaticArguments(tool, declared, client, org, range, limit, offset).Keys ==
            {"client_id", "org_id"} + (if WINDOWS_TOOLS[tool] && dates <= declared then dates else {})
            + (if paging <= declared then paging else {})
  {
    hide Clamp;
  }

  lemma HelperValues(tool: string, declared: set<string>, client: string, org: string, range: TimeRange,
                     limit: int, offset: int)
    requires tool in WINDOWS_TOOLS
    ensures var args := StaticArguments(tool, declared, client, org, range, limit, offset);
            && {"client_id", "org_id"} <= args.Keys
            && args["client_id"] == Text(client) && args["org_id"] == Text(org)
            && ("DateAfter" in args ==>
                  "DateBefore" in args && args["DateAfter"] == Time(range.from) && args["DateBefore"] == Time(range.to))
            && ("limit" in args ==>
                  && "offset" in args && Paged(args["limit"], limit, 1, 50)
                  && args["offset"] == Number(if offset > 0 then offset else 0))
  {
    hide Clamp, Paged;
    ArgumentNamesDiffer();
    ClampIsPaged(limit);
  }

  lemma ClampIsPaged(n: int)
    ensures Paged(Number(Clamp(n, 1, 50)), n, 1, 50)
  {
  }

  lemma TruncatedIsKept(envelope: Envelope, maxChars: nat)
    ensures var kept := Truncated(envelope, maxChars);
            && kept.ok == envelope.ok && kept.pagination == envelope.pagination
            && KeptOrPreviewed(kept.data, envelope.data, maxChars)
            && (Loggable(kept.data) <==> |Dump(envelope.data)| > maxChars || Loggable(envelope.data))
  {
    hide Dump;
    var text, data := Dump(envelope.data), Truncated(envelope, maxChars).data;
    if |text| > maxChars {
      assert "truncated"[0] == 't' && "original_chars"[0] == 'o' && "preview"[0] == 'p';
      LookupFinds(data.fields, "truncated", Null, 0);
      LookupFinds(data.fields, "original_chars", Null, 1);
      LookupFinds(data.fields, "preview", Null, 2);
      LookupFinds(data.fields, "preview", Str(""), 2);
    }
  }

  lemma VerifiedGoes(s: Session, cfg: Settings, client: string, org: string, wire: Wire)
    ensures var (s', r) := Verified(s, cfg, client, org, wire); VerifyGoes(s, s', r, client, org, wire)
  {
    hide Rows, Names, VerifyArguments, AsksForClient, Loggable;
    ClientAsks(client, org);
  }

  lemma ClientAsks(client: string, org: string)
    ensures AsksForClient(Call("list_clients", VerifyArguments(client, org)), client, org)
  {
    assert |"search"| == 6 && "search"[0] == 's' && |"limit"| == 5 && "org_id"[0] == 'o';
    assert "^" + client + "$" == ['^'] + client + ['$'];
  }

  /** Only data marked with True itself whose preview has no length cannot be logged. */
  lemma LoggingRaisesExactlyWhen(data: Json)
    ensures !Loggable(data) <==>
            && data.Obj? && Get(data, "truncated", Null) == Bool(true)
            && var preview := Get(data, "preview", Str("")); preview.Null? || preview.Bool? || preview.Num?
  {
  }

  /** A row names a client by `client_id`, or by `ClientId` when that is missing or empty. */
  lemma NamesExactlyWhen(row: Json, client: string)
    requires client != ""
    ensures Names(row, client) <==>
            && row.Obj?
            && (Get(row, "client_id", Null) == Str(client) ||
                (!Truthy(Get(row, "client_id", Null)) && Get(row, "ClientId", Null) == Str(client)))
  {
  }

  /** Where rows come from: a list itself, the first key that holds something, or the one object there is. */
  lemma RowsCome(data: Json)
    ensures data.Arr? ==> Rows(data) == data.items
    ensures !data.Arr? && !data.Obj? ==> Rows(data) == []
    ensures data.Obj? ==>
      var clients, items, rows := Get(data, "clients", Null), Get(data, "items", Null), Get(data, "rows", Null);
      && (Truthy(clients) && clients.Arr? ==> Rows(data) == clients.items)
      && (!Truthy(clients) && Truthy(items) && items.Arr? ==> Rows(data) == items.items)
      && (!Truthy(clients) && !Truthy(items) && Truthy(rows) && rows.Arr? ==> Rows(data) == rows.items)
      && (!Truthy(clients) && !Truthy(items) && !Truthy(rows) ==> Rows(data) == [data])
      && (Truthy(clients) && !clients.Arr? ==> Rows(data) == [])
  {
  }

  // ----- the adapter -----

  class VelociraptorAdapter {
    const settings: Settings
    var tools: Option<ToolTable>
    var calls: seq<Call>

    function View(): Session
      reads this
    {
      Session(tools, calls)
    }

    constructor (settings: Settings)
      ensures this.settings == settings && View() == Session(None, [])
    {
      this.settings := settings;
      tools, calls := None, [];
    }

    method LoadTools(d: Discovery) returns (r: Outcome<ToolTable>)
      modifies this
      ensures (View(), r) == Loaded(old(View()), d)
    {
      if tools == None {
        match d
        case Listed(found) => tools := Some(found);
        case NotListed(kind) => return Threw(Fault(kind));
      }
      return Returned(tools.value);
    }

    method InvokeTool(tool: string, arguments: map<string, Arg>, reply: Reply) returns (r: Outcome<Envelope>)
      modifies this
      ensures View() == old(View()).(calls := old(calls) + [Call(tool, arguments)])
      ensures r == Answered(reply)
    {
      calls := calls + [Call(tool, arguments)];
      r := Answered(reply);
    }

    /** _log_tool_result: the answer goes on only if its metadata can be taken. */
    method LogToolResult(envelope: Envelope) returns (r: Outcome<Envelope>)
      ensures r == Logged(Returned(envelope))
    {
      var data := envelope.data;
      if data.Obj? && Get(data, "truncated", Null) == Bool(true) {
        var preview := Get(data, "preview", Str(""));
        if !(preview.Str? || preview.Arr? || preview.Obj?) {
          return Threw(Fault("TypeError"));
        }
      }
      return Returned(envelope);
    }

    method Collect(tool: string, client: string, org: string, range: TimeRange, limit: int, offset: int,
                   names: set<string>, wire: Wire) returns (r: Outcome<Envelope>)
      modifies this
      ensures (View(), r) == Collected(old(View()), settings, tool, client, org, range, limit, offset, names, wire)
      ensures CollectGoes(old(View()), View(), r, client, if org == "" then settings.orgId else org, tool, range, limit,
                          offset, names, wire, settings.maxToolResultChars)
    {
      CollectedGoes(View(), settings, tool, client, org, range, limit, offset, names, wire);
      if CUSTOM_PREFIX <= tool {
        r := CollectCustom(tool, names, client, org, wire);
        return;
      }
      if tool !in WINDOWS_TOOLS {
        return Threw(POLICY);
      }
      if tool == EVENT_LOGS {
        return Threw(POLICY);
      }
      var loaded := LoadTools(wire.discovery);
      if loaded.Threw? {
        return Threw(loaded.fault);
      }
      if tool !in loaded.value {
        return Threw(POLICY);
      }
      var declared := loaded.value[tool];
      var arguments := map["client_id" := Text(client), "org_id" := Text(OrElse(org, settings.orgId))];
      if WINDOWS_TOOLS[tool] && "DateAfter" in declared && "DateBefore" in declared {
        arguments := arguments["DateAfter" := Time(range.from)];
        arguments := arguments["DateBefore" := Time(range.to)];
      }
      if "limit" in declared && "offset" in declared {
        arguments := arguments["limit" := Number(Clamp(limit, 1, 50))];
        arguments := arguments["offset" := Number(if offset < 0 then 0 else offset)];
      }
      r := InvokeTool(tool, arguments, wire.reply);
      if r.Returned? {
        r := LogToolResult(Truncated(r.value, settings.maxToolResultChars));
      }
    }

    method CollectCustom(tool: string, names: set<string>, client: string, org: string, wire: Wire)
      returns (r: Outcome<Envelope>)
      requires CUSTOM_PREFIX <= tool
      modifies this
      ensures forall range, limit, offset ::
        (View(), r) == Collected(old(View()), settings, tool, client, org, range, limit, offset, names, wire)
      ensures ArtifactGoes(old(View()), View(), r, client, if org == "" then settings.orgId else org, tool, names, wire,
                           settings.maxToolResultChars)
    {
      CollectedGoes(View(), settings, tool, client, org, TimeRange(0, 0), 0, 0, names, wire);
      if tool !in names {
        return Threw(POLICY);
      }
      var loaded := LoadTools(wire.discovery);
      if loaded.Threw? {
        return Threw(loaded.fault);
      }
      if COLLECT_CUSTOM !in loaded.value {
        return Threw(POLICY);
      }
      var arguments := map["client_id" := Text(client), "org_id" := Text(OrElse(org, settings.orgId)),
                           "artifact" := Text(tool[|CUSTOM_PREFIX|..]), "limit" := Number(50), "offset" := Number(0)];
      r := InvokeTool(COLLECT_CUSTOM, arguments, wire.reply);
      if r.Returned? {
        r := LogToolResult(Truncated(r.value, settings.maxToolResultChars));
      }
    }

    method CollectEventLogTriage(client: string, org: string, range: TimeRange, wire: Wire) returns (r: Outcome<Json>)
      modifies this
      ensures (View(), r) == Triaged(old(View()), settings, client, org, range, wire)
      ensures TriageGoes(old(View()), View(), r, client, if org == "" then settings.orgId else org, range, wire)
    {
      TriagedGoes(View(), settings, client, org, range, wire);
      var loaded := LoadTools(wire.discovery);
      if loaded.Threw? {
        return Threw(loaded.fault);
      }
      if EVENT_LOGS_TRIAGE !in loaded.value {
        return Threw(POLICY);
      }
      var answer := InvokeTool(EVENT_LOGS_TRIAGE, TriageArguments(client, OrElse(org, settings.orgId), range),
          wire.reply);
      if answer.Returned? {
        answer := LogToolResult(answer.value);
      }
      match answer
      case Threw(fault) => r := Threw(fault);
      case Returned(envelope) =>
        r := if envelope.ok then Returned(Summary(envelope.data, true)) else Threw(POLICY);
    }

    method CollectEventLogDetail(client: string, org: string, e: Expansion, wire: Wire) returns (r: Outcome<Json>)
      modifies this
      ensures (View(), r) == Detailed(old(View()), settings, client, org, e, wire)
      ensures DetailGoes(old(View()), View(), r, client, if org == "" then settings.orgId else org, e, wire)
    {
      DetailedGoes(View(), settings, client, org, e, wire);
      var loaded := LoadTools(wire.discovery);
      if loaded.Threw? {
        return Threw(loaded.fault);
      }
      if EVENT_LOGS_DETAIL !in loaded.value {
        return Threw(POLICY);
      }
      var arguments := map["client_id" := Text(client), "org_id" := Text(OrElse(org, settings.orgId)),
                           "DateAfter" := Time(e.after), "DateBefore" := Time(e.before), "max_rows" := Number(50)];
      if e.ids != [] {
        arguments := arguments["event_ids" := Text(Joined(e.ids))];
      }
      var answer := InvokeTool(EVENT_LOGS_DETAIL, arguments, wire.reply);
      if answer.Returned? {
        answer := LogToolResult(answer.value);
      }
      match answer
      case Threw(fault) => r := Threw(fault);
      case Returned(envelope) =>
        r := if envelope.ok then Returned(Summary(envelope.data, false)) else Threw(POLICY);
    }

    method VerifyTarget(client: string, org: string, wire: Wire) returns (r: Outcome<Json>)
      modifies this
      ensures (View(), r) == Verified(old(View()), settings, client, org, wire)
      ensures VerifyGoes(old(View()), View(), r, client, org, wire)
    {
      VerifiedGoes(View(), settings, client, org, wire);
      var loaded := LoadTools(wire.discovery);
      if loaded.Threw? {
        return Threw(loaded.fault);
      }
      if "list_clients" !in loaded.value {
        return Threw(POLICY);
      }
      var answer := InvokeTool("list_clients", VerifyArguments(client, org), wire.reply);
      if answer.Returned? {
        answer := LogToolResult(answer.value);
      }
      if answer.Threw? {
        return Threw(answer.fault);
      }
      if !answer.value.ok {
        return Threw(POLICY);
      }
      var rows := Rows(answer.value.data);
      var i := 0;
      while i < |rows|
        invariant 0 <= i <= |rows|
        invariant FirstNamed(rows, client) == FirstNamed(rows[i..], client)
      {
        if Names(rows[i], client) {
          return Returned(rows[i]);
        }
        i := i + 1;
      }
      return Threw(POLICY);
    }
  }

  // ----- what the policies guarantee of any single operation -----

  /** At most one call is made, with these arguments, and never for a tool the policies refuse. */
  lemma CollectedCallsAtMostOnce(s: Session, cfg: Settings, tool: string, client: string, org: string, range: TimeRange,
                                 limit: int, offset: int, names: set<string>, wire: Wire)
    ensures var before, after := s.calls,
        Collected(s, cfg, tool, client, org, range, limit, offset, names, wire).0.calls;
            var org := OrElse(org, cfg.orgId);
            || after == before
            || (CUSTOM_PREFIX <= tool && tool in names &&
                after == before + [Call(COLLECT_CUSTOM, CustomArguments(tool[|CUSTOM_PREFIX|..], client, org))])
            || (!(CUSTOM_PREFIX <= tool) && tool in WINDOWS_TOOLS && tool != EVENT_LOGS &&
                exists declared: set<string> ::
                  after == before + [Call(tool, StaticArguments(tool, declared, client, org, range, limit, offset))])
  {
    hide Truncated, StaticArguments, CustomArguments;
  }

  /** Paging never asks for more than 50 rows or a negative offset, whatever was requested. */
  lemma StaticPagingIsBounded(tool: string, declared: set<string>, client: string, org: string, range: TimeRange,
      limit: int, offset: int)
    requires tool in WINDOWS_TOOLS
    ensures var args := StaticArguments(tool, declared, client, org, range, limit, offset);
            && ("limit" in args <==> {"limit", "offset"} <= declared)
            && ("limit" in args ==> args["limit"].Number? && 1 <= args["limit"].n <= 50)
            && ("limit" in args ==> args["offset"].Number? && args["offset"].n >= 0)
            && ("DateAfter" in args <==> WINDOWS_TOOLS[tool] && {"DateAfter", "DateBefore"} <= declared)
            && ("DateAfter" in args ==> args["DateAfter"] == Time(range.from) && args["DateBefore"] == Time(range.to))
  {
    assert |"limit"| == 5 && |"offset"| == 6 && |"client_id"| == 9 && "org_id"[0] == 'o' && "offset"[1] == 'f' &&
        "org_id"[1] == 'r';
    assert |"DateAfter"| == 9 && "DateAfter"[0] == 'D' && |"DateBefore"| == 10;
  }
}
