/** The portal's WebSocket reconnection: rotating over candidate URLs, locking the one that works, backing off. */
module Reconnect {
  import opened Common

  datatype State = State(retry: nat, candidate: nat, locked: Option<string>, generation: nat)

  const START := State(0, 0, None, 0)

  function PowerOfTwo(n: nat): nat {
    if n == 0 then 1 else 2 * PowerOfTwo(n - 1)
  }

  /** Milliseconds to wait after a close: doubling from one second, at most thirty. */
  function Delay(retry: nat): nat {
    var d := 1000 * PowerOfTwo(retry);
    if d < 30_000 then d else 30_000
  }

  function IndexOf(urls: seq<string>, url: string): (i: nat)
    requires url in urls
    ensures i < |urls| && urls[i] == url && url !in urls[..i]
  {
    if urls[0] == url then 0 else 1 + IndexOf(urls[1..], url)
  }

  /** The URL to dial: the locked one if still offered, else the current candidate, starting over at the end. */
  function Dialled(s: State, urls: seq<string>): (State, string)
    requires urls != []
  {
    if s.locked.Some? && s.locked.value in urls then (s, s.locked.value)
    else
      var i := if s.candidate >= |urls| then 0 else s.candidate;
      (s.(locked := None, candidate := i), urls[i])
  }

  function Opened(s: State, urls: seq<string>, url: string): State
    requires url in urls
  {
    s.(retry := 0, candidate := IndexOf(urls, url), locked := Some(url))
  }

  /** A close seen by a socket of generation `gen`; a socket of an earlier generation changes nothing. */
  function Closed(s: State, gen: nat, wasOpen: bool): State {
    if gen != s.generation then s
    else
      var s1 := if wasOpen then s else s.(locked := None, candidate := s.candidate + 1);
      s1.(retry := s1.retry + 1)
  }

  function CleanedUp(s: State): State {
    s.(generation := s.generation + 1)
  }

  datatype Event =
    | Dial
    | Open(url: string)
    | Close(gen: nat, wasOpen: bool)
    | Cleanup

  function Handle(s: State, urls: seq<string>, e: Event): State {
    match e
    case Dial => if urls == [] then s else Dialled(s, urls).0
    case Open(url) => if url in urls then Opened(s, urls, url) else s
    case Close(gen, wasOpen) => Closed(s, gen, wasOpen)
    case Cleanup => CleanedUp(s)
  }

  function Run(urls: seq<string>, events: seq<Event>): State {
    if events == [] then START else Handle(Run(urls, events[..|events| - 1]), urls, events[|events| - 1])
  }

  /** The locked URL is the one the candidate index points at. */
  lemma {:induction false} LockPointsAtCandidate(urls: seq<string>, events: seq<Event>)
    ensures var s := Run(urls, events);
            s.locked.Some? ==> s.candidate < |urls| && urls[s.candidate] == s.locked.value
  {
    if events != [] {
      LockPointsAtCandidate(urls, events[..|events| - 1]);
    }
  }

  /** One failed attempt: dial, then a close without an open. */
  function Failed(s: State, urls: seq<string>): State
    requires urls != []
  {
    Closed(Dialled(s, urls).0, s.generation, false)
  }

  function AfterFailures(s: State, urls: seq<string>, k: nat): State
    requires urls != []
  {
    if k == 0 then s else Failed(AfterFailures(s, urls, k - 1), urls)
  }

  function DialledAfter(s: State, urls: seq<string>, k: nat): string
    requires urls != []
  {
    Dialled(AfterFailures(s, urls, k), urls).1
  }

  function Position(s: State, n: nat): nat
    requires n > 0
  {
    if s.candidate >= n then 0 else s.candidate
  }

  /** The place k < n steps on from `start` in a circle of n. */
  function Onward(start: nat, k: nat, n: nat): nat
    requires start < n && k < n
  {
    if start + k < n then start + k else start + k - n
  }

  /** The k-th consecutive failing attempt dials the URL k places on, in a circle. */
  lemma {:induction false} DialsInACircle(s: State, urls: seq<string>, k: nat)
    requires k < |urls| && (s.locked.Some? ==> s.candidate < |urls| && urls[s.candidate] == s.locked.value)
    ensures var s' := AfterFailures(s, urls, k);
            && s'.generation == s.generation
            && Position(s', |urls|) == Onward(Position(s, |urls|), k, |urls|)
            && (k > 0 ==> s'.locked == None)
            && DialledAfter(s, urls, k) == urls[Onward(Position(s, |urls|), k, |urls|)]
  {
    if k > 0 {
      DialsInACircle(s, urls, k - 1);
    }
  }

  /**
   * From any state a provider can reach with n different URLs on offer, n consecutive attempts that
   * never open dial every one of them.
   */
  lemma FailuresTryEveryUrl(urls: seq<string>, events: seq<Event>, j: nat) returns (k: nat)
    requires j < |urls|
    ensures k < |urls| && DialledAfter(Run(urls, events), urls, k) == urls[j]
  {
    hide AfterFailures, Dialled, Run;
    var s, n := Run(urls, events), |urls|;
    var start := Position(s, n);
    LockPointsAtCandidate(urls, events);
    k := if j >= start then j - start else j + n - start;
    DialsInACircle(s, urls, k);
  }

  lemma {:induction false} PowerOfTwoGrows(n: nat)
    ensures PowerOfTwo(n) >= 1 && PowerOfTwo(n + 1) == 2 * PowerOfTwo(n)
  {
    if n > 0 { PowerOfTwoGrows(n - 1); }
  }

  /** The wait never exceeds thirty seconds, never shrinks from one failure to the next, and restarts at one second. */
  lemma BackoffIsBounded(s: State, urls: seq<string>, url: string)
    requires url in urls
    ensures 1000 <= Delay(s.retry) <= 30_000
    ensures Delay(s.retry) <= Delay(Failed(s, urls).retry)
    ensures Delay(Opened(s, urls, url).retry) == 1000
  {
    PowerOfTwoGrows(s.retry);
  }

  /** A socket that had opened and closes is dialled again at its own URL, after a wait of one second. */
  lemma OpenedIsDialledAgain(s: State, urls: seq<string>, url: string)
    requires url in urls
    ensures var closed := Closed(Opened(s, urls, url), s.generation, true);
            Dialled(closed, urls) == (closed, url) && closed.retry == 1 && closed.generation == s.generation
  {
  }

  /** After k attempts in a row that never opened, the wait is 2 to the k seconds, cut off at thirty. */
  lemma {:induction false} WaitsDouble(s: State, urls: seq<string>, k: nat)
    requires urls != []
    ensures var failed := AfterFailures(s, urls, k);
            && failed.retry == s.retry + k
            && (s.retry == 0 ==> Delay(failed.retry) == if k < 5 then 1000 * [1, 2, 4, 8, 16][k] else 30_000)
  {
    if k > 0 {
      WaitsDouble(s, urls, k - 1);
    }
    FirstPowers();
    if k >= 5 {
      PowersGrow(5, k);
    }
  }

  lemma FirstPowers()
    ensures PowerOfTwo(0) == 1 && PowerOfTwo(1) == 2 && PowerOfTwo(2) == 4 && PowerOfTwo(3) == 8 && PowerOfTwo(4) == 16
    ensures PowerOfTwo(5) == 32
  {
    assert PowerOfTwo(2) == 4 && PowerOfTwo(4) == 16;
  }

  lemma {:induction false} PowersGrow(m: nat, n: nat)
    requires m <= n
    ensures PowerOfTwo(m) <= PowerOfTwo(n)
  {
    if m < n {
      PowersGrow(m, n - 1);
      PowerOfTwoGrows(n - 1);
    }
  }

  /** A failed attempt is a dial followed by a close of the current generation that had not opened. */
  lemma FailureIsTwoEvents(urls: seq<string>, events: seq<Event>)
    requires urls != []
    ensures var s := Run(urls, events);
            Run(urls, events + [Dial, Close(s.generation, false)]) == Failed(s, urls)
  {
    var s, dialled := Run(urls, events), events + [Dial];
    assert dialled[..|events|] == events;
    assert (dialled + [Close(s.generation, false)])[..|dialled|] == dialled;
    assert events + [Dial, Close(s.generation, false)] == dialled + [Close(s.generation, false)];
  }

  /** After a cleanup, closes of the old generation's sockets can no longer move the rotation. */
  lemma StaleSocketsAreIgnored(s: State, gen: nat, wasOpen: bool)
    requires gen <= s.generation
    ensures Closed(CleanedUp(s), gen, wasOpen) == CleanedUp(s)
  {
  }

  /** Opening has no such guard: a late open would change the refs unless they already stand at its URL. */
  lemma LateOpenMovesExactlyWhen(urls: seq<string>, events: seq<Event>, url: string)
    requires url in urls
    ensures var s := Run(urls, events + [Cleanup]);
            Run(urls, events + [Cleanup, Open(url)]) == s <==>
            s.retry == 0 && s.locked == Some(url) && s.candidate == IndexOf(urls, url)
  {
    var cleaned := events + [Cleanup];
    assert (events + [Cleanup, Open(url)])[..|events| + 1] == cleaned;
    assert events + [Cleanup, Open(url)] == cleaned + [Open(url)];
  }

  /** The refs of the provider as its callbacks update them. */
  class Provider {
    var retry: nat
    var candidate: nat
    var locked: Option<string>
    var generation: nat

    ghost function View(): State
      reads this
    {
      State(retry, candidate, locked, generation)
    }

    constructor ()
      ensures View() == START
    {
      retry, candidate, locked, generation := 0, 0, None, 0;
    }

    /** With no URL on offer nothing is dialled, nothing changes, and `retryIn` is when to connect again. */
    method Connect(urls: seq<string>) returns (url: Option<string>, retryIn: Option<nat>)
      modifies this
      ensures urls == [] ==> url == None && retryIn == Some(5000) && View() == old(View())
      ensures urls != [] ==> url.Some? && retryIn == None && (View(), url.value) == Dialled(old(View()), urls)
      ensures urls != [] ==>
                if old(locked).Some? && old(locked).value in urls then url == old(locked) && View() == old(View())
                else
                  && locked == None && retry == old(retry) && generation == old(generation)
                  && candidate == (if old(candidate) < |urls| then old(candidate) else 0)
                  && url == Some(urls[candidate])
    {
      if urls == [] {
        return None, Some(5000);
      }
      retryIn := None;
      if locked.Some? && locked.value in urls {
        url := locked;
      } else {
        locked := None;
        if candidate >= |urls| {
          candidate := 0;
        }
        url := Some(urls[candidate]);
      }
    }

    method OnOpen(urls: seq<string>, url: string)
      requires url in urls
      modifies this
      ensures View() == Opened(old(View()), urls, url)
    {
      retry := 0;
      candidate := IndexOf(urls, url);
      locked := Some(url);
    }

    /** `delay` is when to connect again, if this socket still matters. */
    method OnClose(gen: nat, wasOpen: bool) returns (delay: Option<nat>)
      modifies this
      ensures View() == Closed(old(View()), gen, wasOpen)
      ensures gen == generation ==> retry == old(retry) + 1
      ensures gen == generation && wasOpen ==> locked == old(locked) && candidate == old(candidate)
      ensures gen == generation && !wasOpen ==> locked == None && candidate == old(candidate) + 1
      ensures delay == if gen == generation then Some(Delay(old(retry))) else None
    {
      if gen != generation {
        return None;
      }
      if !wasOpen {
        locked := None;
        candidate := candidate + 1;
      }
      delay := Some(Delay(retry));
      retry := retry + 1;
    }

    method OnUnmount()
      modifies this
      ensures View() == CleanedUp(old(View())) && generation == old(generation) + 1
    {
      generation := generation + 1;
    }
  }
}
