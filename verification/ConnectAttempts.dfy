/**
 * The connection attempts behind the reconnect refs. An attempt awaits the token and the URLs, then the body
 * with the token, then its socket. Mounting, unmounting and everything that ends an await are steps.
 */
module ConnectAttempts {
  import opened Common
  import opened Reconnect

  /** An attempt keeps the generation it started in. `Pausing` waits for the timer of its next attempt. */
  datatype Attempt =
    | Fetching(gen: nat)
    | Reading(gen: nat, urls: seq<string>)
    | Connecting(gen: nat, urls: seq<string>, url: string)
    | Connected(gen: nat, urls: seq<string>, url: string)
    | Pausing(gen: nat)
    | Over

  /** `held` is the attempt whose socket an unmount closes: the last one that dialled. */
  datatype Client = Client(refs: State, mounted: bool, attempts: seq<Attempt>, held: Option<nat>)

  const IDLE := Client(START, false, [], None)

  datatype Step =
    | Mount
    | Unmount
    | Fetched(i: nat, ok: bool, urls: seq<string>)
    | TokenRead(i: nat, ok: bool)
    | SocketOpens(i: nat)
    | SocketCloses(i: nat)
    | Timer(i: nat)

  predicate HasSocket(a: Attempt) {
    a.Connecting? || a.Connected?
  }

  function Becomes(c: Client, i: nat, a: Attempt): Client
    requires i < |c.attempts|
  {
    c.(attempts := c.attempts[i := a])
  }

  function AfterUnmount(c: Client): Client {
    var c1 := c.(refs := CleanedUp(c.refs), mounted := false);
    if c.held.Some? && c.held.value < |c.attempts| && HasSocket(c.attempts[c.held.value])
    then Becomes(c1, c.held.value, Over)
    else c1
  }

  /** The one check of the generation on the way to a socket. */
  function AfterFetched(c: Client, i: nat, ok: bool, urls: seq<string>): Client
    requires i < |c.attempts| && c.attempts[i].Fetching?
  {
    var gen := c.attempts[i].gen;
    Becomes(c, i, if ok && gen == c.refs.generation then Reading(gen, urls) else Over)
  }

  /** Dialling follows the reading of the token without another check. */
  function AfterTokenRead(c: Client, i: nat, ok: bool): Client
    requires i < |c.attempts| && c.attempts[i].Reading?
  {
    var gen, urls := c.attempts[i].gen, c.attempts[i].urls;
    if !ok then Becomes(c, i, Over)
    else if urls == [] then Becomes(c, i, Pausing(gen))
    else
      var (refs, url) := Dialled(c.refs, urls);
      Becomes(c, i, Connecting(gen, urls, url)).(refs := refs, held := Some(i))
  }

  function Take(c: Client, e: Step): Client {
    match e
    case Mount =>
      if c.mounted then c
      else c.(mounted := true, attempts := c.attempts + [Fetching(c.refs.generation)])
    case Unmount => if c.mounted then AfterUnmount(c) else c
    case Fetched(i, ok, urls) =>
      if i < |c.attempts| && c.attempts[i].Fetching? then AfterFetched(c, i, ok, urls) else c
    case TokenRead(i, ok) =>
      if i < |c.attempts| && c.attempts[i].Reading? then AfterTokenRead(c, i, ok) else c
    case SocketOpens(i) =>
      if i < |c.attempts| && c.attempts[i].Connecting? then
        var a := c.attempts[i];
        var refs := if a.url in a.urls then Opened(c.refs, a.urls, a.url) else c.refs;
        Becomes(c, i, Connected(a.gen, a.urls, a.url)).(refs := refs)
      else c
    case SocketCloses(i) =>
      if i < |c.attempts| && HasSocket(c.attempts[i]) then
        var a := c.attempts[i];
        Becomes(c, i, if a.gen == c.refs.generation then Pausing(a.gen) else Over)
          .(refs := Closed(c.refs, a.gen, a.Connected?))
      else c
    case Timer(i) =>
      if i < |c.attempts| && c.attempts[i].Pausing? then
        var gen := c.attempts[i].gen;
        Becomes(c, i, if gen == c.refs.generation then Fetching(gen) else Over)
      else c
  }

  function After(steps: seq<Step>): Client {
    if steps == [] then IDLE else Take(After(steps[..|steps| - 1]), steps[|steps| - 1])
  }

  // ----- sockets that outlive their generation -----

  /** The attempt has a socket although its generation is over. */
  predicate Late(c: Client, i: nat) {
    i < |c.attempts| && HasSocket(c.attempts[i]) && c.attempts[i].gen != c.refs.generation
  }

  /** The step reads the token of an attempt that an unmount overtook, and there is a URL to dial. */
  predicate Overtaken(c: Client, e: Step) {
    && e.TokenRead? && e.ok && e.i < |c.attempts| && c.attempts[e.i].Reading?
    && c.attempts[e.i].urls != [] && c.attempts[e.i].gen != c.refs.generation
  }

  predicate NoneOvertaken(steps: seq<Step>) {
    forall n :: 0 <= n < |steps| ==> !Overtaken(After(steps[..n]), steps[n])
  }

  predicate OfNow(c: Client, i: nat) {
    i < |c.attempts| && !c.attempts[i].Over? && c.attempts[i].gen == c.refs.generation
  }

  /** One chain of attempts for each generation, and none before mounting. */
  ghost predicate OneChain(c: Client) {
    && (forall i :: 0 <= i < |c.attempts| && !c.attempts[i].Over? ==> c.attempts[i].gen <= c.refs.generation)
    && (forall i, j :: OfNow(c, i) && OfNow(c, j) ==> i == j)
    && (forall i :: OfNow(c, i) ==> c.mounted)
    && (forall i :: 0 <= i < |c.attempts| && c.attempts[i].Connecting? ==> c.attempts[i].url in c.attempts[i].urls)
  }

  lemma OneChainAfter(c: Client, e: Step)
    requires OneChain(c)
    ensures OneChain(Take(c, e))
  {
    var c' := Take(c, e);
    KeepsAttempts(c, e);
    hide Take, OfNow;
    if e == Mount && !c.mounted {
      forall i, j | OfNow(c', i) && OfNow(c', j) ensures i == j {
      }
    }
  }

  /** An attempt of the current generation was one before, or has just been started by mounting. */
  lemma KeepsAttempts(c: Client, e: Step)
    requires OneChain(c)
    ensures var c' := Take(c, e);
            && |c'.attempts| >= |c.attempts|
            && (forall i :: OfNow(c', i) ==>
                  c'.mounted && (OfNow(c, i) || (e == Mount && !c.mounted && i == |c.attempts|)))
            && (forall i :: 0 <= i < |c'.attempts| && !c'.attempts[i].Over? ==>
                  c'.attempts[i].gen <= c'.refs.generation)
            && (forall i :: 0 <= i < |c'.attempts| && c'.attempts[i].Connecting? ==>
                  c'.attempts[i].url in c'.attempts[i].urls)
  {
    var c' := Take(c, e);
    forall i | OfNow(c', i) ensures c'.mounted && (OfNow(c, i) || (e == Mount && !c.mounted && i == |c.attempts|)) {
      CameFrom(c, e, i);
    }
  }

  lemma KeepsGeneration(c: Client, e: Step, i: nat)
    requires !e.Mount? && !e.Unmount? && OfNow(Take(c, e), i)
    ensures OfNow(c, i) && Take(c, e).mounted == c.mounted
  {
    assert Take(c, e).refs.generation == c.refs.generation;
    if i != e.i {
      assert Take(c, e).attempts[i] == c.attempts[i];
    }
  }

  lemma CameFrom(c: Client, e: Step, i: nat)
    requires OneChain(c) && OfNow(Take(c, e), i)
    ensures Take(c, e).mounted && (OfNow(c, i) || (e == Mount && !c.mounted && i == |c.attempts|))
  {
    if e.Mount? || e.Unmount? {
      assert i < |c.attempts| && !c.attempts[i].Over? ==> c.attempts[i].gen <= c.refs.generation;
    } else {
      KeepsGeneration(c, e, i);
      hide Take;
    }
  }

  lemma {:induction false} OneChainAlways(steps: seq<Step>)
    ensures OneChain(After(steps))
  {
    if steps != [] {
      OneChainAlways(steps[..|steps| - 1]);
      hide Take, OneChain;
      OneChainAfter(After(steps[..|steps| - 1]), steps[|steps| - 1]);
    }
  }

  /** Every socket belongs to the current generation and is the one an unmount would close. */
  ghost predicate Held(c: Client) {
    forall i :: 0 <= i < |c.attempts| && HasSocket(c.attempts[i]) ==>
      c.attempts[i].gen == c.refs.generation && c.held == Some(i)
  }

  lemma HeldAfter(c: Client, e: Step)
    requires OneChain(c) && Held(c) && !Overtaken(c, e)
    ensures Held(Take(c, e))
  {
    var c' := Take(c, e);
    forall i | 0 <= i < |c'.attempts| && HasSocket(c'.attempts[i])
      ensures c'.attempts[i].gen == c'.refs.generation && c'.held == Some(i)
    {
      if i < |c.attempts| && HasSocket(c.attempts[i]) {
        assert OfNow(c, i);
        if e.TokenRead? && e.i < |c.attempts| && c.attempts[e.i].Reading? && c.attempts[e.i].gen == c.refs.generation {
          assert OfNow(c, e.i);
        }
      }
    }
  }

  lemma {:induction false} HeldAlways(steps: seq<Step>)
    requires NoneOvertaken(steps)
    ensures Held(After(steps))
  {
    if steps != [] {
      var before := steps[..|steps| - 1];
      assert forall n :: 0 <= n < |before| ==> steps[..n] == before[..n] && steps[n] == before[n];
      HeldAlways(before);
      OneChainAlways(before);
      hide Take, OneChain, Held, Overtaken;
      HeldAfter(After(before), steps[|steps| - 1]);
    }
  }

  /**
   * A socket outlives its generation at some point of a history exactly if at some point an unmount fell
   * between an attempt's check of the generation and the reading of its token.
   */
  lemma LateSocketExactlyWhen(steps: seq<Step>)
    ensures (exists n, i :: 0 <= n <= |steps| && Late(After(steps[..n]), i)) <==> !NoneOvertaken(steps)
  {
    hide After, Late, Overtaken;
    if n, i :| 0 <= n <= |steps| && Late(After(steps[..n]), i) {
      LateOnlyAfterOvertaking(steps, n, i);
    }
    if !NoneOvertaken(steps) {
      var n :| 0 <= n < |steps| && Overtaken(After(steps[..n]), steps[n]);
      var m, i := OvertakenIsLate(steps, n);
    }
  }

  lemma LateOnlyAfterOvertaking(steps: seq<Step>, n: nat, i: nat)
    requires n <= |steps| && Late(After(steps[..n]), i)
    ensures !NoneOvertaken(steps)
  {
    hide After, Overtaken;
    if NoneOvertaken(steps) {
      assert forall m :: 0 <= m < n ==> steps[..n][..m] == steps[..m] && steps[..n][m] == steps[m];
      HeldAlways(steps[..n]);
      assert false;
    }
  }

  lemma OvertakenIsLate(steps: seq<Step>, n: nat) returns (m: nat, i: nat)
    requires n < |steps| && Overtaken(After(steps[..n]), steps[n])
    ensures m <= |steps| && Late(After(steps[..m]), i)
  {
    m, i := n + 1, steps[n].i;
    assert steps[..n + 1] == steps[..n] + [steps[n]];
    AfterOne(steps[..n], steps[n]);
    hide After;
  }

  lemma StaysReading(c: Client, e: Step, i: nat)
    requires var c' := Take(c, e);
             OneChain(c) && i < |c'.attempts| && c'.attempts[i].Reading? && c'.attempts[i].gen != c'.refs.generation
    ensures i < |c.attempts| && c.attempts[i] == Take(c, e).attempts[i]
    ensures c.attempts[i].gen == c.refs.generation ==> e == Unmount && c.mounted && OfNow(c, i)
  {
  }

  /** An attempt still reading its token when its generation is over was overtaken by an unmount while reading. */
  lemma {:induction false} ReadingWasOvertaken(steps: seq<Step>, i: nat) returns (n: nat)
    requires var c := After(steps); i < |c.attempts| && c.attempts[i].Reading? && c.attempts[i].gen != c.refs.generation
    ensures n < |steps| && steps[n] == Unmount
    ensures var c, now := After(steps[..n]), After(steps);
            c.mounted && OfNow(c, i) && c.attempts[i] == now.attempts[i]
  {
    var before := steps[..|steps| - 1];
    var c, e := After(before), steps[|steps| - 1];
    OneChainAlways(before);
    hide After, Take, OneChain;
    StaysReading(c, e, i);
    if i < |c.attempts| && c.attempts[i].Reading? && c.attempts[i].gen != c.refs.generation {
      n := ReadingWasOvertaken(before, i);
      assert steps[..n] == before[..n];
    } else {
      n := |before|;
    }
  }

  /**
   * As long as no attempt was overtaken, nothing moves the refs of an unmounted client; the first thing that
   * can is the reading of an overtaken attempt's token.
   */
  lemma UnmountedRefsStandStill(steps: seq<Step>, e: Step)
    requires NoneOvertaken(steps) && !After(steps).mounted
    ensures Take(After(steps), e).refs != After(steps).refs ==> Overtaken(After(steps), e)
  {
    OneChainAlways(steps);
    HeldAlways(steps);
    hide After, Take, OneChain, Held;
    UnmountedStandsStill(After(steps), e);
  }

  lemma UnmountedStandsStill(c: Client, e: Step)
    requires OneChain(c) && Held(c) && !c.mounted
    ensures Take(c, e).refs != c.refs ==> Overtaken(c, e)
  {
    forall i | 0 <= i < |c.attempts| ensures !HasSocket(c.attempts[i]) {
      assert !OfNow(c, i);
    }
    if e.TokenRead? && e.i < |c.attempts| && c.attempts[e.i].Reading? {
      assert !OfNow(c, e.i);
    }
  }

  lemma AfterOne(steps: seq<Step>, e: Step)
    ensures After(steps + [e]) == Take(After(steps), e)
  {
    assert (steps + [e])[..|steps|] == steps;
  }

  /** Unmounting while the token is read: the client dials, opens and locks a URL after its unmount. */
  lemma LocksAfterUnmount(url: string)
    ensures var before := [Mount, Fetched(0, true, [url]), Unmount];
            && After(before).refs.locked == None && !After(before).mounted
            && var c := After(before + [TokenRead(0, true), SocketOpens(0)]);
               c.refs.locked == Some(url) && !c.mounted && c.attempts == [Connected(0, [url], url)]
  {
    AfterOne([], Mount);
    AfterOne([Mount], Fetched(0, true, [url]));
    AfterOne([Mount, Fetched(0, true, [url])], Unmount);
    var before := [Mount, Fetched(0, true, [url]), Unmount];
    AfterOne(before, TokenRead(0, true));
    AfterOne(before + [TokenRead(0, true)], SocketOpens(0));
    assert before == [Mount, Fetched(0, true, [url])] + [Unmount];
    assert before + [TokenRead(0, true), SocketOpens(0)] == before + [TokenRead(0, true)] + [SocketOpens(0)];
  }
}
