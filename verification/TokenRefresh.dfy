/**
 * The portal's session refresh: concurrent requests with the same refresh token share one upstream
 * call, and its result is kept for a minute. Each event is one run-to-completion step of the
 * JavaScript event loop, so any sequence of events is an interleaving.
 */
module TokenRefresh {
  import opened Common

  datatype Pair = Pair(access: string, refresh: string)

  const TTL: nat := 60_000

  /**
   * One upstream refresh: sent, answered, then its `then` callback and its `finally` callback run
   * as separate microtasks before its promise settles.
   */
  datatype Stage = Sent | Answered(result: Option<Pair>) | Stored(result: Option<Pair>) | Settled(result: Option<Pair>)

  datatype Flight = Flight(token: string, sentAt: nat, storedAt: nat, stage: Stage)

  datatype Entry = Entry(pair: Pair, expiresAt: nat)

  /** What a call of refreshTokens was given: a cached pair, or a flight's promise. */
  datatype Given = Cached(pair: Pair) | Promised(flight: nat)

  /** A call, with the time and how many flights had been sent when it was made. */
  datatype Caller = Caller(token: string, at: nat, seen: nat, given: Given)

  datatype Event =
    | Tick(elapsed: nat)
    | Refresh(token: string)
    | Answer(flight: nat, result: Option<Pair>)
    | RunThen(flight: nat)
    | RunFinally(flight: nat)

  /** `inFlight` and `cache` are the module's maps; `flights` and `callers` record the history. */
  datatype Broker = Broker(
    now: nat,
    inFlight: map<string, nat>,
    cache: map<string, Entry>,
    flights: seq<Flight>,
    callers: seq<Caller>)

  const START := Broker(0, map[], map[], [], [])

  predicate Fresh(b: Broker, token: string) {
    token in b.cache && b.cache[token].expiresAt > b.now
  }

  function WithStage(b: Broker, f: nat, stage: Stage): Broker
    requires f < |b.flights|
  {
    b.(flights := b.flights[f := b.flights[f].(stage := stage)])
  }

  /** The synchronous body of refreshTokens. */
  function Refreshed(b: Broker, token: string): Broker {
    if Fresh(b, token) then
      b.(callers := b.callers + [Caller(token, b.now, |b.flights|, Cached(b.cache[token].pair))])
    else if token in b.inFlight then
      b.(callers := b.callers + [Caller(token, b.now, |b.flights|, Promised(b.inFlight[token]))])
    else
      b.(flights := b.flights + [Flight(token, b.now, 0, Sent)],
         inFlight := b.inFlight[token := |b.flights|],
         callers := b.callers + [Caller(token, b.now, |b.flights| + 1, Promised(|b.flights|))])
  }

  /** Store a successful pair for a minute and drop the entries that have expired. */
  function Remembered(cache: map<string, Entry>, token: string, pair: Pair, now: nat): map<string, Entry> {
    var stored := cache[token := Entry(pair, now + TTL)];
    map k | k in stored && stored[k].expiresAt > now :: stored[k]
  }

  function ThenRan(b: Broker, f: nat): Broker
    requires f < |b.flights| && b.flights[f].stage.Answered?
  {
    var flight := b.flights[f];
    var b1 := b.(flights := b.flights[f := flight.(stage := Stored(flight.stage.result), storedAt := b.now)]);
    match flight.stage.result
    case None => b1
    case Some(pair) => b1.(cache := Remembered(b.cache, flight.token, pair, b.now))
  }

  function FinallyRan(b: Broker, f: nat): Broker
    requires f < |b.flights| && b.flights[f].stage.Stored?
  {
    WithStage(b, f, Settled(b.flights[f].stage.result)).(inFlight := b.inFlight - {b.flights[f].token})
  }

  function Handle(b: Broker, e: Event): Broker {
    match e
    case Tick(elapsed) => b.(now := b.now + elapsed)
    case Refresh(token) => Refreshed(b, token)
    case Answer(f, result) =>
      if f < |b.flights| && b.flights[f].stage.Sent? then WithStage(b, f, Answered(result)) else b
    case RunThen(f) => if f < |b.flights| && b.flights[f].stage.Answered? then ThenRan(b, f) else b
    case RunFinally(f) => if f < |b.flights| && b.flights[f].stage.Stored? then FinallyRan(b, f) else b
  }

  function Run(events: seq<Event>): Broker {
    if events == [] then START else Handle(Run(events[..|events| - 1]), events[|events| - 1])
  }

  // ----- the invariant -----

  predicate Outstanding(f: Flight) {
    !f.stage.Settled?
  }

  /** The flight's success has been stored, with this pair. */
  predicate StoredPair(f: Flight, pair: Pair) {
    (f.stage.Stored? || f.stage.Settled?) && f.stage.result == Some(pair)
  }

  /** Outstanding flights are exactly those the in-flight map points to, at most one per token. */
  ghost predicate InFlightExact(b: Broker) {
    && (forall t :: t in b.inFlight ==>
          b.inFlight[t] < |b.flights| && b.flights[b.inFlight[t]].token == t && Outstanding(b.flights[b.inFlight[t]]))
    && (forall f :: 0 <= f < |b.flights| && Outstanding(b.flights[f]) ==>
          b.flights[f].token in b.inFlight && b.inFlight[b.flights[f].token] == f)
  }

  /** A stored pair stays in the cache until its minute is over. */
  ghost predicate CacheKeeps(b: Broker) {
    && (forall f, pair ::
          0 <= f < |b.flights| && StoredPair(b.flights[f], pair) && b.now < b.flights[f].storedAt + TTL ==>
          b.flights[f].token in b.cache && b.cache[b.flights[f].token] == Entry(pair, b.flights[f].storedAt + TTL))
    && (forall f :: 0 <= f < |b.flights| && (b.flights[f].stage.Stored? || b.flights[f].stage.Settled?) ==>
          b.flights[f].storedAt <= b.now)
  }

  /** While a flight is not yet stored, no unexpired entry for its token is in the cache. */
  ghost predicate NoFreshBeforeStore(b: Broker) {
    forall f :: 0 <= f < |b.flights| && (b.flights[f].stage.Sent? || b.flights[f].stage.Answered?) ==>
      !Fresh(b, b.flights[f].token)
  }

  /** A later flight for a token was sent after the earlier one settled and its minute was over. */
  ghost predicate Spaced(b: Broker) {
    forall f, g :: 0 <= f < g < |b.flights| && b.flights[f].token == b.flights[g].token ==>
      && b.flights[f].stage.Settled?
      && forall pair :: StoredPair(b.flights[f], pair) ==> b.flights[f].storedAt + TTL <= b.flights[g].sentAt
  }

  /** Calls made since a flight was sent, up to the end of its minute, share its promise or its pair. */
  ghost predicate Shared(b: Broker) {
    forall c, f :: (0 <= c < |b.callers| && 0 <= f < |b.flights| && b.callers[c].token == b.flights[f].token
                    && f < b.callers[c].seen) ==> SharedBy(b.callers[c], b.flights[f], f)
  }

  ghost predicate SharedBy(c: Caller, flight: Flight, f: nat) {
    match flight.stage
    case Sent => c.given == Promised(f)
    case Answered(_) => c.given == Promised(f)
    case _ => forall pair :: StoredPair(flight, pair) && c.at < flight.storedAt + TTL ==>
                             c.given == Promised(f) || c.given == Cached(pair)
  }

  ghost predicate CallersSane(b: Broker) {
    forall c :: 0 <= c < |b.callers| ==> b.callers[c].seen <= |b.flights| && b.callers[c].at <= b.now
  }

  ghost predicate Inv(b: Broker) {
    InFlightExact(b) && CacheKeeps(b) && NoFreshBeforeStore(b) && Spaced(b) && Shared(b) && CallersSane(b)
  }

  lemma InvAfterTick(b: Broker, elapsed: nat)
    requires Inv(b)
    ensures Inv(Handle(b, Tick(elapsed)))
  {
  }

  /** No flight for this token is outstanding when a new one is sent, and every success is a minute old. */
  lemma EarlierFlightsAreOver(b: Broker, token: string, f: nat)
    requires Inv(b) && !Fresh(b, token) && token !in b.inFlight
    requires f < |b.flights| && b.flights[f].token == token
    ensures b.flights[f].stage.Settled?
    ensures forall pair :: StoredPair(b.flights[f], pair) ==> b.flights[f].storedAt + TTL <= b.now
  {
    hide Shared, Spaced, NoFreshBeforeStore;
  }

  lemma InvAfterSend(b: Broker, token: string)
    requires Inv(b) && !Fresh(b, token) && token !in b.inFlight
    ensures Inv(Refreshed(b, token))
  {
    forall f | 0 <= f < |b.flights| && b.flights[f].token == token
      ensures b.flights[f].stage.Settled?
      ensures forall pair :: StoredPair(b.flights[f], pair) ==> b.flights[f].storedAt + TTL <= b.now
    {
      EarlierFlightsAreOver(b, token, f);
    }
    SendKeepsMaps(b, token);
    SendKeepsHistory(b, token);
  }

  lemma SendKeepsMaps(b: Broker, token: string)
    requires Inv(b) && !Fresh(b, token) && token !in b.inFlight
    ensures var b' := Refreshed(b, token);
            InFlightExact(b') && CacheKeeps(b') && NoFreshBeforeStore(b') && CallersSane(b')
  {
    hide Shared, Spaced;
  }

  lemma SendKeepsHistory(b: Broker, token: string)
    requires Inv(b) && !Fresh(b, token) && token !in b.inFlight
    requires forall f :: 0 <= f < |b.flights| && b.flights[f].token == token ==>
               b.flights[f].stage.Settled? &&
               forall pair :: StoredPair(b.flights[f], pair) ==> b.flights[f].storedAt + TTL <= b.now
    ensures Spaced(Refreshed(b, token)) && Shared(Refreshed(b, token))
  {
    hide CacheKeeps, InFlightExact, NoFreshBeforeStore;
  }

  lemma InvAfterRefresh(b: Broker, token: string)
    requires Inv(b)
    ensures Inv(Refreshed(b, token))
  {
    if Fresh(b, token) || token in b.inFlight {
      JoinedShares(b, token);
    } else {
      InvAfterSend(b, token);
    }
  }

  lemma JoinedShares(b: Broker, token: string)
    requires Inv(b) && (Fresh(b, token) || token in b.inFlight)
    ensures Inv(Refreshed(b, token))
  {
    hide InFlightExact, CacheKeeps, NoFreshBeforeStore, Spaced, SharedBy, Shared;
    var b' := Refreshed(b, token);
    var c := b'.callers[|b.callers|];
    forall f | 0 <= f < |b.flights| && b.flights[f].token == token ensures SharedBy(c, b.flights[f], f) {
      JoinedCaller(b, token, f);
    }
    OnlyCallersChanged(b, b');
    OneMoreShares(b, b', c);
  }

  lemma OnlyCallersChanged(b: Broker, b': Broker)
    requires b' == b.(callers := b'.callers)
    requires InFlightExact(b) && CacheKeeps(b) && NoFreshBeforeStore(b) && Spaced(b)
    ensures InFlightExact(b') && CacheKeeps(b') && NoFreshBeforeStore(b') && Spaced(b')
  {
  }

  lemma OneMoreShares(b: Broker, b': Broker, c: Caller)
    requires Shared(b) && b' == b.(callers := b.callers + [c])
    requires forall f :: 0 <= f < |b.flights| && b.flights[f].token == c.token ==> SharedBy(c, b.flights[f], f)
    ensures Shared(b')
  {
    hide SharedBy;
  }

  lemma JoinedCaller(b: Broker, token: string, f: nat)
    requires Inv(b) && (Fresh(b, token) || token in b.inFlight)
    requires f < |b.flights| && b.flights[f].token == token
    ensures SharedBy(Refreshed(b, token).callers[|b.callers|], b.flights[f], f)
  {
    hide Shared, CallersSane, Spaced;
  }

  lemma InvAfterAnswer(b: Broker, f: nat, result: Option<Pair>)
    requires Inv(b)
    ensures Inv(Handle(b, Answer(f, result)))
  {
    if f < |b.flights| && b.flights[f].stage.Sent? {
      StageKeepsMaps(b, f, Answered(result));
      StageKeepsHistory(b, f, Answered(result));
    }
  }

  /** An answer, or settling what was stored, changes nothing that the invariants speak of. */
  predicate Quiet(before: Stage, after: Stage) {
    (before.Sent? && after.Answered?) || (before.Stored? && after == Settled(before.result))
  }

  lemma StageKeepsMaps(b: Broker, f: nat, stage: Stage)
    requires Inv(b) && f < |b.flights| && b.flights[f].stage.Sent? && stage.Answered?
    ensures var b' := WithStage(b, f, stage);
            InFlightExact(b') && CacheKeeps(b') && NoFreshBeforeStore(b') && CallersSane(b')
  {
    hide Shared, Spaced;
  }

  lemma StageKeepsHistory(b: Broker, f: nat, stage: Stage)
    requires Inv(b) && f < |b.flights| && Quiet(b.flights[f].stage, stage)
    ensures Spaced(WithStage(b, f, stage)) && Shared(WithStage(b, f, stage))
  {
    hide CacheKeeps, InFlightExact, NoFreshBeforeStore;
    var b' := WithStage(b, f, stage);
    forall g, pair | 0 <= g < |b.flights| ensures StoredPair(b'.flights[g], pair) == StoredPair(b.flights[g], pair) {
    }
  }

  lemma InvAfterThen(b: Broker, f: nat)
    requires Inv(b) && f < |b.flights| && b.flights[f].stage.Answered?
    ensures Inv(ThenRan(b, f))
  {
    hide InFlightExact, CacheKeeps, NoFreshBeforeStore, Spaced, Shared, CallersSane, ThenRan;
    ThenKeepsFlights(b, f);
    ThenKeepsCache(b, f);
    ThenKeepsHistory(b, f);
  }

  lemma ThenKeepsFlights(b: Broker, f: nat)
    requires Inv(b) && f < |b.flights| && b.flights[f].stage.Answered?
    ensures InFlightExact(ThenRan(b, f)) && CallersSane(ThenRan(b, f))
  {
    hide CacheKeeps, NoFreshBeforeStore, Spaced, Shared, Remembered;
  }

  /** Flights other than f for the same token are settled, and their minute is over. */
  lemma OthersAreOver(b: Broker, f: nat, g: nat, pair: Pair)
    requires Inv(b) && f < |b.flights| && b.flights[f].stage.Answered?
    requires g < |b.flights| && g != f && b.flights[g].token == b.flights[f].token && StoredPair(b.flights[g], pair)
    ensures b.flights[g].storedAt + TTL <= b.now
  {
    hide InFlightExact, Spaced, Shared;
  }

  lemma ThenKeepsCache(b: Broker, f: nat)
    requires Inv(b) && f < |b.flights| && b.flights[f].stage.Answered?
    ensures CacheKeeps(ThenRan(b, f)) && NoFreshBeforeStore(ThenRan(b, f))
  {
    hide Spaced, Shared, CallersSane;
    var b' := ThenRan(b, f);
    forall g, pair | 0 <= g < |b.flights| && StoredPair(b'.flights[g], pair) && b.now < b'.flights[g].storedAt + TTL
      ensures b'.flights[g].token in b'.cache
      ensures b'.cache[b'.flights[g].token] == Entry(pair, b'.flights[g].storedAt + TTL)
    {
      if g != f && b.flights[g].token == b.flights[f].token {
        OthersAreOver(b, f, g, pair);
      }
    }
  }

  lemma ThenKeepsHistory(b: Broker, f: nat)
    requires Inv(b) && f < |b.flights| && b.flights[f].stage.Answered?
    ensures Spaced(ThenRan(b, f)) && Shared(ThenRan(b, f))
  {
    hide CacheKeeps, InFlightExact, NoFreshBeforeStore, Remembered;
    var b' := ThenRan(b, f);
    assert forall g :: 0 <= g < |b.flights| && g != f ==> b'.flights[g] == b.flights[g];
  }

  lemma InvAfterFinally(b: Broker, f: nat)
    requires Inv(b) && f < |b.flights| && b.flights[f].stage.Stored?
    ensures Inv(FinallyRan(b, f))
  {
    hide InFlightExact, CacheKeeps, NoFreshBeforeStore, Spaced, Shared, CallersSane;
    FinallyKeepsMaps(b, f);
    StageKeepsHistory(b, f, Settled(b.flights[f].stage.result));
    SameHistory(WithStage(b, f, Settled(b.flights[f].stage.result)), FinallyRan(b, f));
  }

  lemma SameHistory(b: Broker, b': Broker)
    requires Spaced(b) && Shared(b) && b'.flights == b.flights && b'.callers == b.callers
    ensures Spaced(b') && Shared(b')
  {
  }

  lemma FinallyKeepsMaps(b: Broker, f: nat)
    requires Inv(b) && f < |b.flights| && b.flights[f].stage.Stored?
    ensures var b' := FinallyRan(b, f);
            InFlightExact(b') && CacheKeeps(b') && NoFreshBeforeStore(b') && CallersSane(b')
  {
    hide Spaced, Shared;
    var b' := FinallyRan(b, f);
    forall g, pair | 0 <= g < |b.flights| ensures StoredPair(b'.flights[g], pair) == StoredPair(b.flights[g], pair) {
    }
  }

  lemma InvAfterEvent(b: Broker, e: Event)
    requires Inv(b)
    ensures Inv(Handle(b, e))
  {
    hide Inv, Refreshed, ThenRan, FinallyRan, WithStage;
    match e
    case Tick(elapsed) => InvAfterTick(b, elapsed);
    case Refresh(token) => InvAfterRefresh(b, token);
    case Answer(f, result) => InvAfterAnswer(b, f, result);
    case RunThen(f) => if f < |b.flights| && b.flights[f].stage.Answered? { InvAfterThen(b, f); }
    case RunFinally(f) => if f < |b.flights| && b.flights[f].stage.Stored? { InvAfterFinally(b, f); }
  }

  lemma {:induction false} InvAlways(events: seq<Event>)
    ensures Inv(Run(events))
  {
    if events != [] {
      hide Inv, Handle;
      InvAlways(events[..|events| - 1]);
      InvAfterEvent(Run(events[..|events| - 1]), events[|events| - 1]);
    }
  }

  // ----- what this means over every interleaving -----

  /**
   * Single flight: at any moment at most one refresh per token is outstanding, and a later one is
   * sent only after the earlier settled and, if it succeeded, after its sixty seconds.
   */
  lemma SingleFlight(events: seq<Event>, f: nat, g: nat)
    requires var b := Run(events); f < g < |b.flights| && b.flights[f].token == b.flights[g].token
    ensures var b := Run(events);
            && !Outstanding(b.flights[f])
            && (b.flights[f].stage.result.Some? ==> b.flights[g].sentAt >= b.flights[f].storedAt + TTL)
  {
    hide Run;
    InvAlways(events);
    var first := Run(events).flights[f];
    if first.stage.result.Some? {
      assert StoredPair(first, first.stage.result.value);
    }
  }

  /** What a call's promise resolves to: None while its flight is not settled. */
  function Result(b: Broker, c: Caller): Option<Option<Pair>> {
    match c.given
    case Cached(pair) => Some(Some(pair))
    case Promised(f) =>
      if f < |b.flights| && b.flights[f].stage.Settled? then Some(b.flights[f].stage.result) else None
  }

  /**
   * Once a refresh succeeds, every call for its token made from its sending to the end of its
   * minute resolves, if it has resolved, to the same pair.
   */
  lemma SamePairForAll(events: seq<Event>, c: nat, f: nat, pair: Pair)
    requires var b := Run(events);
             && c < |b.callers| && f < |b.flights| && b.callers[c].token == b.flights[f].token
             && StoredPair(b.flights[f], pair)
             && f < b.callers[c].seen && b.callers[c].at < b.flights[f].storedAt + TTL
    ensures var b := Run(events);
            var result := Result(b, b.callers[c]);
            || result == Some(Some(pair))
            || (result == None && b.callers[c].given == Promised(f) && b.flights[f].stage.Stored?)
  {
    hide Run;
    InvAlways(events);
    assert SharedBy(Run(events).callers[c], Run(events).flights[f], f);
  }

  /** No gap: from the sending of a refresh until a minute after it is stored, no other is sent for its token. */
  lemma NoSecondSend(events: seq<Event>, f: nat, token: string)
    requires var b := Run(events);
             && f < |b.flights| && b.flights[f].token == token
             && (Outstanding(b.flights[f]) || (b.flights[f].stage.result.Some? && b.now < b.flights[f].storedAt + TTL))
    ensures |Refreshed(Run(events), token).flights| == |Run(events).flights|
  {
    hide Run;
    InvAlways(events);
    var b := Run(events);
    if !Outstanding(b.flights[f]) {
      assert StoredPair(b.flights[f], b.flights[f].stage.result.value);
    }
  }

  // ----- a flight from its answer to the next call -----

  /** An answered flight runs its course: its pair is kept for a minute and given to the next call, or none is. */
  lemma FlightRunsItsCourse(events: seq<Event>, f: nat, result: Option<Pair>)
    requires var b := Run(events); f < |b.flights| && b.flights[f].stage.Sent?
    ensures var b, token := Run(events), Run(events).flights[f].token;
            var b' := Run(events + [Answer(f, result), RunThen(f), RunFinally(f)]);
            && b'.now == b.now && |b'.flights| == |b.flights|
            && b'.flights[f] == Flight(token, b.flights[f].sentAt, b.now, Settled(result))
            && b'.inFlight == b.inFlight - {token}
            && match result
               case Some(pair) =>
                 token in b'.cache && b'.cache[token] == Entry(pair, b.now + 60_000) && Fresh(b', token)
               case None => b'.cache == b.cache
  {
    var one, two := events + [Answer(f, result)], events + [Answer(f, result), RunThen(f)];
    var three := events + [Answer(f, result), RunThen(f), RunFinally(f)];
    assert one[..|events|] == events && two[..|one|] == one && three[..|two|] == two;
    RunOne(events, Answer(f, result));
    RunOne(one, RunThen(f));
    RunOne(two, RunFinally(f));
    assert two == one + [RunThen(f)] && three == two + [RunFinally(f)];
  }

  lemma RunOne(events: seq<Event>, e: Event)
    ensures Run(events + [e]) == Handle(Run(events), e)
  {
    assert (events + [e])[..|events|] == events;
  }

  // ----- the proxy's use of it -----

  datatype Cookies = Kept | Set(pair: Pair) | Cleared

  /**
   * The cookies a proxied request leaves: new ones exactly when a refresh gave a pair, none when an unrefreshed
   * 401 stands.
   */
  function ProxyDecision(firstStatus: int, refresh: Option<string>, refreshed: Option<Pair>): Cookies {
    if firstStatus != 401 then Kept
    else if refresh.None? || refresh.value == "" || refreshed.None? then Cleared
    else Set(refreshed.value)
  }

  /** proxyRequest: refresh on 401 when there is a refresh cookie, retry with the new pair, then decide on cookies. */
  method ProxyRequest(firstStatus: int, refresh: Option<string>, refreshed: Option<Pair>, retryStatus: int)
    returns (status: int, cookies: Cookies)
    ensures cookies == ProxyDecision(firstStatus, refresh, refreshed)
    ensures status == if cookies.Set? then retryStatus else firstStatus
    ensures cookies == Kept <==> firstStatus != 401
    ensures cookies.Set? <==> firstStatus == 401 && refresh.Some? && refresh.value != "" && refreshed.Some?
    ensures cookies.Set? ==> refreshed == Some(cookies.pair)
  {
    status, cookies := firstStatus, Kept;
    var newPair: Option<Pair> := None;
    if status == 401 && refresh.Some? && refresh.value != "" {
      newPair := refreshed;
      if newPair.Some? {
        status := retryStatus;
      }
    }
    if newPair.Some? {
      cookies := Set(newPair.value);
    }
    if status == 401 && newPair.None? {
      cookies := Cleared;
    }
  }

  /** A request whose refresh falls in a successful refresh's period sets that pair's cookies and never clears them. */
  lemma NoClearingInPeriod(events: seq<Event>, c: nat, f: nat, pair: Pair)
    requires var b := Run(events);
             && c < |b.callers| && f < |b.flights| && b.callers[c].token == b.flights[f].token
             && StoredPair(b.flights[f], pair)
             && f < b.callers[c].seen && b.callers[c].at < b.flights[f].storedAt + TTL
             && b.callers[c].token != "" && Result(b, b.callers[c]).Some?
    ensures var b := Run(events);
            ProxyDecision(401, Some(b.callers[c].token), Result(b, b.callers[c]).value) == Set(pair)
  {
    hide Run;
    SamePairForAll(events, c, f, pair);
  }

  // ----- data routes, and whether a new pair reaches the browser -----

  /** A proxied request writes cookies; a data route that only fetches JSON has no response to write them to. */
  datatype Route = Proxied | DataOnly

  function CookiesLeft(route: Route, firstStatus: int, refresh: Option<string>, refreshed: Option<Pair>): Cookies {
    if route.Proxied? then ProxyDecision(firstStatus, refresh, refreshed) else Kept
  }

  /** What the body of an answer holds; `detail` is its error text, if it has one. */
  datatype Body<T> = NotJson | Unreadable | Parsed(data: T, detail: Option<string>)

  datatype Upstream<T> = Upstream(status: int, body: Body<T>)

  datatype Fetched<T> = Fetched(status: int, data: Option<T>, detail: Option<string>)

  /**
   * fetchJsonUpstream: the same refresh and retry, with the cookies left alone. Data comes from a JSON body of
   * a successful answer alone, an error text from that of any other; a body that cannot be parsed raises (None).
   */
  method FetchJson<T>(first: Upstream<T>, refresh: Option<string>, refreshed: Option<Pair>, retry: Upstream<T>)
    returns (result: Option<Fetched<T>>, cookies: Cookies)
    ensures cookies == CookiesLeft(DataOnly, first.status, refresh, refreshed) == Kept
    ensures var retried := first.status == 401 && refresh.Some? && refresh.value != "" && refreshed.Some?;
            var last := if retried then retry else first;
            && (result == None <==> last.body.Unreadable?)
            && (result.Some? ==>
                  && result.value.status == last.status
                  && (result.value.data.Some? <==> last.body.Parsed? && 200 <= last.status < 300)
                  && (result.value.data.Some? ==> result.value.data.value == last.body.data)
                  && result.value.detail == if last.body.Parsed? && !(200 <= last.status < 300) then last.body.detail
                                            else None)
  {
    cookies := Kept;
    var last := first;
    if last.status == 401 && refresh.Some? && refresh.value != "" {
      if refreshed.Some? {
        last := retry;
      }
    }
    match last.body
    case NotJson => result := Some(Fetched(last.status, None, None));
    case Unreadable => result := None;
    case Parsed(data, detail) =>
      result := Some(if 200 <= last.status < 300 then Fetched(last.status, Some(data), None)
                     else Fetched(last.status, None, detail));
  }

  /** Call c asked for flight f's token from its sending to the end of its minute, and has its answer. */
  ghost predicate AnsweredInPeriod(b: Broker, c: nat, f: nat) {
    && c < |b.callers| && f < |b.flights| && b.callers[c].token == b.flights[f].token
    && f < b.callers[c].seen && b.callers[c].at < b.flights[f].storedAt + TTL
    && Result(b, b.callers[c]).Some?
  }

  /** The cookies that the request behind call c leaves. */
  function LeftBy(b: Broker, route: Route, c: nat): Cookies
    requires c < |b.callers| && Result(b, b.callers[c]).Some?
  {
    CookiesLeft(route, 401, Some(b.callers[c].token), Result(b, b.callers[c]).value)
  }

  /**
   * A successful refresh reaches the browser exactly when a proxied request is among those that share
   * it: if only data routes do, the rotated pair is in no cookie.
   */
  lemma RefreshReachesCookieExactlyWhen(events: seq<Event>, routes: nat -> Route, f: nat, pair: Pair)
    requires var b := Run(events); f < |b.flights| && StoredPair(b.flights[f], pair) && b.flights[f].token != ""
    ensures var b := Run(events);
            (exists c: nat :: AnsweredInPeriod(b, c, f) && LeftBy(b, routes(c), c) == Set(pair)) <==>
            (exists c: nat :: AnsweredInPeriod(b, c, f) && routes(c).Proxied?)
  {
    hide Run;
    var b := Run(events);
    forall c: nat | AnsweredInPeriod(b, c, f) ensures LeftBy(b, routes(c), c) == Set(pair) <==> routes(c).Proxied? {
      NoClearingInPeriod(events, c, f, pair);
    }
  }

  /** Every cached entry was stored by a flight, to expire a minute later. */
  ghost predicate CacheHasSource(b: Broker) {
    forall t :: t in b.cache ==> exists f: nat :: Stores(b, f, t)
  }

  ghost predicate Stores(b: Broker, f: nat, token: string) {
    && f < |b.flights| && token in b.cache && b.flights[f].token == token
    && StoredPair(b.flights[f], b.cache[token].pair) && b.cache[token].expiresAt == b.flights[f].storedAt + TTL
  }

  lemma SourceKeptByThen(b: Broker, f: nat)
    requires CacheHasSource(b) && f < |b.flights| && b.flights[f].stage.Answered?
    ensures CacheHasSource(ThenRan(b, f))
  {
    var b' := ThenRan(b, f);
    forall t | t in b'.cache ensures exists g: nat :: Stores(b', g, t) {
      if t == b.flights[f].token && b.flights[f].stage.result.Some? {
        assert Stores(b', f, t);
      } else {
        var g: nat :| Stores(b, g, t);
        assert Stores(b', g, t);
      }
    }
  }

  /** Any step that keeps the cache and every stored result keeps the sources. */
  lemma SourceKeptBySame(b: Broker, b': Broker)
    requires CacheHasSource(b) && b'.cache == b.cache && |b.flights| <= |b'.flights|
    requires forall g, pair :: 0 <= g < |b.flights| && StoredPair(b.flights[g], pair) ==>
               StoredPair(b'.flights[g], pair) && b'.flights[g].token == b.flights[g].token
               && b'.flights[g].storedAt == b.flights[g].storedAt
    ensures CacheHasSource(b')
  {
    hide StoredPair;
    forall t | t in b'.cache ensures exists g: nat :: Stores(b', g, t) {
      var g: nat :| Stores(b, g, t);
      assert Stores(b', g, t);
    }
  }

  lemma SourceKept(b: Broker, e: Event)
    requires CacheHasSource(b)
    ensures CacheHasSource(Handle(b, e))
  {
    hide CacheHasSource, ThenRan;
    if e.RunThen? && e.flight < |b.flights| && b.flights[e.flight].stage.Answered? {
      SourceKeptByThen(b, e.flight);
    } else {
      SourceKeptBySame(b, Handle(b, e));
    }
  }

  lemma {:induction false} SourceAlways(events: seq<Event>)
    ensures CacheHasSource(Run(events))
  {
    if events != [] {
      hide Handle, CacheHasSource;
      SourceAlways(events[..|events| - 1]);
      SourceKept(Run(events[..|events| - 1]), events[|events| - 1]);
    }
  }

  /** No flight for the token is outstanding, and no success is less than a minute old. */
  ghost predicate AllOver(b: Broker, token: string) {
    forall f :: 0 <= f < |b.flights| && b.flights[f].token == token ==>
      !Outstanding(b.flights[f]) && (b.flights[f].stage.result.Some? ==> b.flights[f].storedAt + TTL <= b.now)
  }

  lemma FreshIsRecent(b: Broker, token: string)
    requires CacheHasSource(b) && Fresh(b, token)
    ensures !AllOver(b, token)
  {
    var f: nat :| Stores(b, f, token);
    assert b.flights[f].token == token;
  }

  /** A call sends upstream exactly when nothing of the token is outstanding or younger than a minute. */
  lemma SendsExactlyWhen(events: seq<Event>, token: string)
    ensures var b := Run(events); |Refreshed(b, token).flights| == |b.flights| + 1 <==> AllOver(b, token)
  {
    hide Run;
    var b := Run(events);
    InvAlways(events);
    SourceAlways(events);
    if AllOver(b, token) {
      hide CacheHasSource, CacheKeeps, NoFreshBeforeStore, Spaced, Shared, CallersSane;
      if Fresh(b, token) {
        FreshIsRecent(b, token);
      }
    } else {
      var f :| 0 <= f < |b.flights| && b.flights[f].token == token
               && (Outstanding(b.flights[f]) ||
                   (b.flights[f].stage.result.Some? && b.now < b.flights[f].storedAt + TTL));
      NoSecondSend(events, f, token);
    }
  }

  // ----- the module's maps as they are updated -----

  class SessionBroker {
    var now: nat
    var inFlight: map<string, nat>
    var cache: map<string, Entry>
    var flights: seq<Flight>
    var callers: seq<Caller>

    ghost function View(): Broker
      reads this
    {
      Broker(now, inFlight, cache, flights, callers)
    }

    constructor ()
      ensures View() == START
    {
      now, inFlight, cache, flights, callers := 0, map[], map[], [], [];
    }

    /** refreshTokens: cached pair, or shared promise, or a new upstream call. */
    method RefreshTokens(refresh: string) returns (given: Given)
      modifies this
      ensures View() == Refreshed(old(View()), refresh)
      ensures given == callers[|callers| - 1].given
    {
      if refresh in cache && cache[refresh].expiresAt > now {
        given := Cached(cache[refresh].pair);
      } else if refresh in inFlight {
        given := Promised(inFlight[refresh]);
      } else {
        given := Promised(|flights|);
        inFlight := inFlight[refresh := |flights|];
        flights := flights + [Flight(refresh, now, 0, Sent)];
      }
      callers := callers + [Caller(refresh, now, |flights|, given)];
    }

    /** The then-callback: store a pair and purge what has expired. */
    method OnResult(f: nat)
      requires f < |flights| && flights[f].stage.Answered?
      modifies this
      ensures View() == ThenRan(old(View()), f)
      ensures flights[f] == old(flights[f]).(stage := Stored(old(flights[f].stage.result)), storedAt := now)
      ensures forall k :: k in cache && (k != flights[f].token || flights[f].stage.result.None?) ==>
                k in old(cache) && cache[k] == old(cache)[k]
      ensures flights[f].stage.result.Some? ==>
                && flights[f].token in cache
                && cache[flights[f].token] == Entry(flights[f].stage.result.value, now + TTL)
                && forall k :: k in cache ==> cache[k].expiresAt > now
      ensures forall k :: k in old(cache) && old(cache)[k].expiresAt > now ==> k in cache
    {
      var result := flights[f].stage.result;
      flights := flights[f := flights[f].(stage := Stored(result), storedAt := now)];
      if result.Some? {
        cache := cache[flights[f].token := Entry(result.value, now + TTL)];
        Purge();
      }
    }

    method Purge()
      modifies this`cache
      ensures cache == map k | k in old(cache) && old(cache)[k].expiresAt > now :: old(cache)[k]
    {
      var stored := cache;
      var keys := stored.Keys;
      while keys != {}
        invariant keys <= stored.Keys
        invariant forall k :: k in cache <==> k in stored && (k in keys || stored[k].expiresAt > now)
        invariant forall k :: k in cache ==> cache[k] == stored[k]
        decreases |keys|
      {
        var k :| k in keys;
        if stored[k].expiresAt <= now {
          cache := cache - {k};
        }
        keys := keys - {k};
      }
    }

    method OnSettled(f: nat)
      requires f < |flights| && flights[f].stage.Stored?
      modifies this
      ensures View() == FinallyRan(old(View()), f)
    {
      inFlight := inFlight - {flights[f].token};
      flights := flights[f := flights[f].(stage := Settled(flights[f].stage.result))];
    }
  }
}
