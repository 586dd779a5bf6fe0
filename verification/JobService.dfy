/**
 * The job service: idempotent creation, one task per job, and a FIFO semaphore that bounds how many run.
 * Every event below is what happens between two awaits, so any sequence of events is an interleaving.
 */
module JobService {
  import opened Sequences
  import opened Callback

  datatype Job = Job(investigation: string, status: Status)

  /** A task waiting for the semaphore; `woken` once a released permit was handed to it. */
  datatype Waiter = Waiter(job: string, woken: bool)

  datatype Event =
    | Create(investigation: string)
    | TaskBegins
    | WaiterResumes
    | JobCompletes(job: string)
    | JobFails(job: string)
    | NoticeEnds(job: string)

  /**
   * `created` is the insertion order of the job table, `pending` the tasks created but not yet begun,
   * `started` the order in which jobs were set running, `reporting` the failed jobs whose notice is
   * being sent: they still hold their permit.
   */
  datatype Service = Service(
    jobs: map<string, Job>,
    created: seq<string>,
    pending: seq<string>,
    permits: nat,
    waiters: seq<Waiter>,
    started: seq<string>,
    reporting: set<string>)

  function JobId(investigation: string): string {
    "deepagent-" + investigation
  }

  lemma JobIdInjective(a: string, b: string)
    requires JobId(a) == JobId(b)
    ensures a == b
  {
    assert JobId(a)[10..] == a && JobId(b)[10..] == b;
  }

  function Initially(max: nat): Service {
    Service(map[], [], [], max, [], [], {})
  }

  // ----- the semaphore -----

  /** Hand one permit to the first waiter not yet woken. */
  function WakeNext(waiters: seq<Waiter>): seq<Waiter> {
    if waiters == [] then []
    else if waiters[0].woken then [waiters[0]] + WakeNext(waiters[1..])
    else [waiters[0].(woken := true)] + waiters[1..]
  }

  predicate AllWoken(waiters: seq<Waiter>) {
    forall w :: w in waiters ==> w.woken
  }

  function WakeMany(s: Service): (r: Service)
    ensures r == s.(permits := r.permits, waiters := r.waiters)
    decreases s.permits
  {
    if s.permits == 0 || AllWoken(s.waiters) then s
    else WakeMany(s.(permits := s.permits - 1, waiters := WakeNext(s.waiters)))
  }

  function Started(s: Service, id: string): Service
    requires id in s.jobs
  {
    s.(jobs := s.jobs[id := s.jobs[id].(status := Running)], started := s.started + [id])
  }

  function WithStatus(s: Service, id: string, status: Status): Service
    requires id in s.jobs
  {
    s.(jobs := s.jobs[id := s.jobs[id].(status := status)])
  }

  function Release(s: Service): Service {
    if AllWoken(s.waiters) then s.(permits := s.permits + 1) else s.(waiters := WakeNext(s.waiters))
  }

  // ----- events -----

  predicate Known(s: Service, investigation: string) {
    exists id :: id in s.jobs && s.jobs[id].investigation == investigation
  }

  predicate Enabled(s: Service, e: Event) {
    match e
    case Create(_) => true
    case TaskBegins => s.pending != [] && s.pending[0] in s.jobs
    case WaiterResumes => s.waiters != [] && s.waiters[0].woken && s.waiters[0].job in s.jobs
    case JobCompletes(id) => id in s.jobs && s.jobs[id].status == Running
    case JobFails(id) => id in s.jobs && s.jobs[id].status == Running
    case NoticeEnds(id) => id in s.reporting
  }

  function Handle(s: Service, e: Event): Service {
    if !Enabled(s, e) then s
    else match e
      case Create(inv) =>
        if Known(s, inv) then s
        else s.(jobs := s.jobs[JobId(inv) := Job(inv, Queued)], created := s.created + [JobId(inv)],
                pending := s.pending + [JobId(inv)])
      case TaskBegins =>
        var id, s1 := s.pending[0], s.(pending := s.pending[1..]);
        if s.permits > 0 && s.waiters == [] then Started(s1.(permits := s.permits - 1), id)
        else s1.(waiters := s.waiters + [Waiter(id, false)])
      case WaiterResumes =>
        Started(WakeMany(s.(waiters := s.waiters[1..])), s.waiters[0].job)
      case JobCompletes(id) => Release(WithStatus(s, id, Completed))
      case JobFails(id) => WithStatus(s, id, Status.Failed).(reporting := s.reporting + {id})
      case NoticeEnds(id) => Release(s.(reporting := s.reporting - {id}))
  }

  function Run(max: nat, events: seq<Event>): Service {
    if events == [] then Initially(max) else Handle(Run(max, events[..|events| - 1]), events[|events| - 1])
  }

  // ----- the invariant -----

  function Waiting(s: Service): seq<string> {
    seq(|s.waiters|, i requires 0 <= i < |s.waiters| => s.waiters[i].job)
  }

  function WokenCount(waiters: seq<Waiter>): nat {
    if waiters == [] then 0 else (if waiters[0].woken then 1 else 0) + WokenCount(waiters[1..])
  }

  predicate IsRunning(jobs: map<string, Job>, id: string) {
    id in jobs && jobs[id].status == Running
  }

  /** The jobs running, in the order they started. */
  function Active(jobs: map<string, Job>, started: seq<string>): (r: seq<string>)
    ensures forall id :: id in r <==> id in started && IsRunning(jobs, id)
  {
    if started == [] then []
    else Active(jobs, started[..|started| - 1]) +
         if IsRunning(jobs, started[|started| - 1]) then [started[|started| - 1]] else []
  }

  /** The line of jobs: those started, then those waiting, then those whose task has not begun. */
  function Line(s: Service): seq<string> {
    s.started + Waiting(s) + s.pending
  }

  ghost predicate Ordered(s: Service) {
    && s.created == Line(s)
    && NoRepeats(s.created)
    && s.jobs.Keys == (set id | id in s.created)
    && (forall id :: id in s.jobs ==> id == JobId(s.jobs[id].investigation))
    && (forall id :: id in s.jobs ==> (s.jobs[id].status != Queued <==> id in s.started))
    && (forall id :: id in s.reporting ==> id in s.jobs && s.jobs[id].status == Status.Failed)
  }

  /** Every permit is free, held by a job running or reporting its failure, or handed to a woken waiter. */
  ghost predicate PermitsBalance(s: Service, max: nat) {
    && s.permits + |Active(s.jobs, s.started)| + |s.reporting| + WokenCount(s.waiters) == max
    && (s.permits > 0 && s.waiters != [] ==> s.waiters[0].woken)
  }

  ghost predicate Inv(s: Service, max: nat) {
    Ordered(s) && PermitsBalance(s, max)
  }

  lemma InLine(s: Service, id: string)
    ensures id in Line(s) <==> id in s.started || id in Waiting(s) || id in s.pending
  {
  }

  lemma {:induction false} WakeNextFacts(waiters: seq<Waiter>)
    ensures |WakeNext(waiters)| == |waiters|
    ensures forall i :: 0 <= i < |waiters| ==> WakeNext(waiters)[i].job == waiters[i].job
    ensures WokenCount(WakeNext(waiters)) == WokenCount(waiters) + if AllWoken(waiters) then 0 else 1
  {
    if waiters != [] {
      WakeNextFacts(waiters[1..]);
      if waiters[0].woken {
        assert WakeNext(waiters)[1..] == WakeNext(waiters[1..]);
        assert AllWoken(waiters) <==> AllWoken(waiters[1..]) by {
          forall w | w in waiters && AllWoken(waiters[1..]) ensures w.woken {
            if w != waiters[0] { assert w in waiters[1..]; }
          }
        }
      } else {
        assert WakeNext(waiters)[1..] == waiters[1..];
        assert waiters[0] in waiters;
      }
    }
  }

  lemma {:induction false} WakeManyFacts(s: Service)
    ensures var s' := WakeMany(s);
            && s' == s.(permits := s'.permits, waiters := s'.waiters)
            && Waiting(s') == Waiting(s)
            && s'.permits + WokenCount(s'.waiters) == s.permits + WokenCount(s.waiters)
            && (s'.permits > 0 ==> AllWoken(s'.waiters))
    decreases s.permits
  {
    if s.permits > 0 && !AllWoken(s.waiters) {
      WakeNextFacts(s.waiters);
      WakeManyFacts(s.(permits := s.permits - 1, waiters := WakeNext(s.waiters)));
    }
  }

  lemma {:induction false} WokenCountAppend(waiters: seq<Waiter>, w: Waiter)
    ensures WokenCount(waiters + [w]) == WokenCount(waiters) + if w.woken then 1 else 0
  {
    if waiters != [] {
      assert (waiters + [w])[1..] == waiters[1..] + [w];
      WokenCountAppend(waiters[1..], w);
    }
  }

  /** Changing jobs outside the list does not change who in it is running. */
  lemma {:induction false} ActiveDependsOn(jobs: map<string, Job>, jobs': map<string, Job>, started: seq<string>)
    requires forall id :: id in started ==> IsRunning(jobs, id) == IsRunning(jobs', id)
    ensures Active(jobs', started) == Active(jobs, started)
  {
    if started != [] {
      ActiveDependsOn(jobs, jobs', started[..|started| - 1]);
    }
  }

  lemma ActiveAfterStart(s: Service, id: string)
    requires id in s.jobs && id !in s.started
    ensures Active(Started(s, id).jobs, Started(s, id).started) == Active(s.jobs, s.started) + [id]
  {
    var s' := Started(s, id);
    assert s'.started[..|s'.started| - 1] == s.started;
    ActiveDependsOn(s.jobs, s'.jobs, s.started);
  }

  lemma {:induction false} ActiveAfterEnd(jobs: map<string, Job>, jobs': map<string, Job>, started: seq<string>,
      id: string)
    requires NoRepeats(started) && id in started && IsRunning(jobs, id) && !IsRunning(jobs', id)
    requires forall other :: other in started && other != id ==> IsRunning(jobs, other) == IsRunning(jobs', other)
    ensures |Active(jobs', started)| == |Active(jobs, started)| - 1
  {
    var init, last := started[..|started| - 1], started[|started| - 1];
    if last == id {
      forall other | other in init ensures other != id {
      }
      ActiveDependsOn(jobs, jobs', init);
    } else {
      ActiveAfterEnd(jobs, jobs', init, id);
    }
  }

  lemma InvAfterCreate(s: Service, max: nat, inv: string)
    requires Inv(s, max)
    ensures Inv(Handle(s, Create(inv)), max)
  {
    if !Known(s, inv) {
      var id, s' := JobId(inv), Handle(s, Create(inv));
      assert Line(s') == Line(s) + [id];
      NewIdIsFresh(s, inv);
      CreateKeepsOrder(s, s', inv);
      CreateKeepsBalance(s, s', max, inv);
    }
  }

  lemma NewIdIsFresh(s: Service, inv: string)
    requires Ordered(s) && !Known(s, inv)
    ensures JobId(inv) !in s.created
  {
    forall id | id in s.created ensures id != JobId(inv) {
      assert id in s.jobs;
      if s.jobs[id].investigation != inv && id == JobId(inv) {
        JobIdInjective(inv, s.jobs[id].investigation);
      }
    }
  }

  lemma CreateKeepsOrder(s: Service, s': Service, inv: string)
    requires Ordered(s) && JobId(inv) !in s.created && Line(s') == Line(s) + [JobId(inv)]
    requires s'.jobs == s.jobs[JobId(inv) := Job(inv, Queued)] && s'.created == s.created + [JobId(inv)]
    requires s'.started == s.started && s'.reporting == s.reporting
    ensures Ordered(s')
  {
    InLine(s, JobId(inv));
    hide Line;
  }

  lemma CreateKeepsBalance(s: Service, s': Service, max: nat, inv: string)
    requires Inv(s, max) && JobId(inv) !in s.created
    requires s'.jobs == s.jobs[JobId(inv) := Job(inv, Queued)] && s'.started == s.started
    requires s'.permits == s.permits && s'.waiters == s.waiters && s'.reporting == s.reporting
    ensures PermitsBalance(s', max)
  {
    InLine(s, JobId(inv));
    ActiveDependsOn(s.jobs, s'.jobs, s.started);
  }

  /** Nobody in the line after the started jobs has started. */
  lemma NotYetStarted(s: Service, i: nat)
    requires Ordered(s) && |s.started| <= i < |Line(s)|
    ensures var id := Line(s)[i]; id !in s.started && id in s.jobs && s.jobs[id].status == Queued
  {
    assert Line(s)[i] in s.created;
    forall k | 0 <= k < |s.started| ensures s.started[k] != Line(s)[i] {
      assert s.started[k] == s.created[k];
    }
  }

  lemma InvAfterTaskBegins(s: Service, max: nat)
    requires Inv(s, max)
    ensures Inv(Handle(s, TaskBegins), max)
  {
    if Enabled(s, TaskBegins) {
      hide Ordered, PermitsBalance, Handle;
      if s.permits > 0 && s.waiters == [] {
        InvAfterFastStart(s, max);
      } else {
        InvAfterJoiningLine(s, max);
      }
    }
  }

  lemma InvAfterFastStart(s: Service, max: nat)
    requires Inv(s, max) && Enabled(s, TaskBegins) && s.permits > 0 && s.waiters == []
    ensures Inv(Handle(s, TaskBegins), max)
  {
    hide Ordered, PermitsBalance, Active, WokenCount;
    var id, s' := s.pending[0], Handle(s, TaskBegins);
    assert Line(s)[|s.started|] == id && Line(s') == Line(s);
    NotYetStarted(s, |s.started|);
    ActiveAfterStart(s.(pending := s.pending[1..], permits := s.permits - 1), id);
    StartKeepsOrder(s, s', id);
    StartKeepsBalance(s, s', max);
  }

  lemma InvAfterJoiningLine(s: Service, max: nat)
    requires Inv(s, max) && Enabled(s, TaskBegins) && !(s.permits > 0 && s.waiters == [])
    ensures Inv(Handle(s, TaskBegins), max)
  {
    hide Ordered, PermitsBalance, WokenCount;
    var id, s' := s.pending[0], Handle(s, TaskBegins);
    assert Waiting(s') == Waiting(s) + [id];
    assert Line(s') == Line(s);
    WokenCountAppend(s.waiters, Waiter(id, false));
    WaitingKeepsInv(s, s', max);
  }

  lemma WaitingKeepsInv(s: Service, s': Service, max: nat)
    requires Inv(s, max) && Line(s') == Line(s)
    requires s' == s.(waiters := s'.waiters, pending := s'.pending)
    requires WokenCount(s'.waiters) == WokenCount(s.waiters)
    requires s.waiters != [] ==> s.waiters <= s'.waiters
    requires s.waiters == [] ==> s.permits == 0
    ensures Inv(s', max)
  {
    hide Line, Active, WokenCount, NoRepeats;
  }

  lemma InvAfterWaiterResumes(s: Service, max: nat)
    requires Inv(s, max)
    ensures Inv(Handle(s, WaiterResumes), max)
  {
    if Enabled(s, WaiterResumes) {
      hide Ordered, PermitsBalance, Active, Handle;
      var id := s.waiters[0].job;
      var s2, s' := ResumedLine(s, id);
      NotYetStarted(s, |s.started|);
      ActiveAfterStart(s2, id);
      StartKeepsOrder(s, s', id);
      StartKeepsBalance(s, s', max);
    }
  }

  /** The first waiter leaves the line for the started jobs; the line as a whole is unchanged. */
  lemma ResumedLine(s: Service, id: string) returns (s2: Service, s': Service)
    requires Enabled(s, WaiterResumes) && id == s.waiters[0].job
    ensures |s.started| < |Line(s)| && Line(s)[|s.started|] == id
    ensures s2.jobs == s.jobs && s2.started == s.started
    ensures s' == Started(s2, id) && s' == Handle(s, WaiterResumes)
    ensures s'.created == s.created && Line(s') == Line(s) && s'.reporting == s.reporting
    ensures s'.permits + WokenCount(s'.waiters) == s.permits + WokenCount(s.waiters) - 1
    ensures s'.permits > 0 ==> AllWoken(s'.waiters)
  {
    var s1 := s.(waiters := s.waiters[1..]);
    s2, s' := WakeMany(s1), Handle(s, WaiterResumes);
    WakeManyFacts(s1);
    assert Waiting(s) == [id] + Waiting(s1);
    assert Waiting(s') == Waiting(s1);
  }

  lemma StartKeepsOrder(s: Service, s': Service, id: string)
    requires Ordered(s) && s'.created == s.created && Line(s') == Line(s)
    requires |s.started| < |Line(s)| && Line(s)[|s.started|] == id
    requires id in s.jobs && s.jobs[id].status == Queued && s'.reporting == s.reporting
    requires s'.jobs == s.jobs[id := s.jobs[id].(status := Running)] && s'.started == s.started + [id]
    ensures Ordered(s')
  {
    hide Line;
  }

  /** A start turns a permit or a wake-up into a running job. */
  lemma StartKeepsBalance(s: Service, s': Service, max: nat)
    requires PermitsBalance(s, max)
    requires |Active(s'.jobs, s'.started)| == |Active(s.jobs, s.started)| + 1 && s'.reporting == s.reporting
    requires s'.permits + WokenCount(s'.waiters) == s.permits + WokenCount(s.waiters) - 1
    requires s'.permits > 0 ==> s'.waiters == [] || AllWoken(s'.waiters)
    ensures PermitsBalance(s', max)
  {
    hide Active, WokenCount;
    if s'.waiters != [] { assert s'.waiters[0] in s'.waiters; }
  }

  lemma InvAfterCompletion(s: Service, max: nat, id: string)
    requires Inv(s, max)
    ensures Inv(Handle(s, JobCompletes(id)), max)
  {
    if Enabled(s, JobCompletes(id)) {
      hide Ordered, PermitsBalance, Active, Release;
      var ended := WithStatus(s, id, Completed);
      StatusKeepsOrder(s, ended, id);
      EndedWasStarted(s, id);
      ActiveAfterEnd(s.jobs, ended.jobs, s.started, id);
      ReleaseKeepsInv(s, ended, max);
    }
  }

  lemma InvAfterFailure(s: Service, max: nat, id: string)
    requires Inv(s, max)
    ensures Inv(Handle(s, JobFails(id)), max)
  {
    if IsRunning(s.jobs, id) {
      var s' := FailedLine(s, id);
      hide Ordered, PermitsBalance, Line, Active, Handle, Held, WokenCount;
      StatusKeepsOrder(s, s', id);
      HeldKeepsBalance(s, s', max);
    }
  }

  /** Failing passes the job's permit from the running to the reporting jobs. */
  lemma FailedLine(s: Service, id: string) returns (s': Service)
    requires Ordered(s) && IsRunning(s.jobs, id)
    ensures s' == Handle(s, JobFails(id))
    ensures s'.created == s.created && s'.started == s.started && Line(s') == Line(s)
    ensures s'.jobs == s.jobs[id := s.jobs[id].(status := Status.Failed)] && s'.reporting == s.reporting + {id}
    ensures s'.permits == s.permits && s'.waiters == s.waiters && Held(s') == Held(s)
  {
    s' := Handle(s, JobFails(id));
    assert Line(s') == Line(s);
    NotYetReporting(s, id);
    EndedWasStarted(s, id);
    hide Line, Ordered, Active;
    ActiveAfterEnd(s.jobs, s'.jobs, s.started, id);
  }

  lemma NotYetReporting(s: Service, id: string)
    requires Ordered(s) && IsRunning(s.jobs, id)
    ensures id !in s.reporting
  {
  }

  lemma HeldKeepsBalance(s: Service, s': Service, max: nat)
    requires PermitsBalance(s, max) && s'.permits == s.permits && s'.waiters == s.waiters && Held(s') == Held(s)
    ensures PermitsBalance(s', max)
  {
    hide Active, WokenCount;
  }

  lemma InvAfterNotice(s: Service, max: nat, id: string)
    requires Inv(s, max)
    ensures Inv(Handle(s, NoticeEnds(id)), max)
  {
    if id in s.reporting {
      var ended := s.(reporting := s.reporting - {id});
      assert Held(ended) == Held(s) - 1 && Handle(s, NoticeEnds(id)) == Release(ended) by {
        hide Active, Release, Ordered, PermitsBalance;
      }
      hide *;
      FewerReporting(s, ended);
      ReleaseKeepsInv(s, ended, max);
    }
  }

  lemma FewerReporting(s: Service, s': Service)
    requires Ordered(s) && s' == s.(reporting := s'.reporting) && s'.reporting <= s.reporting
    ensures Ordered(s')
  {
    assert Line(s') == Line(s);
    hide Line, NoRepeats;
  }

  /** The permits held: by running jobs and by those reporting. */
  function Held(s: Service): nat {
    |Active(s.jobs, s.started)| + |s.reporting|
  }

  /** Releasing the permit of a job that just ended keeps the balance. */
  lemma ReleaseKeepsInv(s: Service, ended: Service, max: nat)
    requires PermitsBalance(s, max) && Ordered(ended)
    requires ended.permits == s.permits && ended.waiters == s.waiters && Held(ended) == Held(s) - 1
    ensures Inv(Release(ended), max)
  {
    hide Active;
    WakeNextFacts(s.waiters);
    FirstStaysWoken(s.waiters);
    if s.waiters != [] { assert s.waiters[0] in s.waiters; }
    var s' := Release(ended);
    assert Waiting(s') == Waiting(ended);
    SameOrder(ended, s');
  }

  lemma SameOrder(s: Service, s': Service)
    requires Ordered(s) && s' == s.(permits := s'.permits, waiters := s'.waiters) && Waiting(s') == Waiting(s)
    ensures Ordered(s')
  {
  }

  lemma EndedWasStarted(s: Service, id: string)
    requires Ordered(s) && IsRunning(s.jobs, id)
    ensures id in s.started && NoRepeats(s.started)
  {
    StartedHasNoRepeats(s);
  }

  lemma StatusKeepsOrder(s: Service, s': Service, id: string)
    requires Ordered(s) && s'.created == s.created && s'.started == s.started && Line(s') == Line(s)
    requires id in s.jobs && s.jobs[id].status == Running
    requires s'.jobs.Keys == s.jobs.Keys && s'.jobs[id].status != Queued
    requires s'.jobs[id].investigation == s.jobs[id].investigation
    requires forall other :: other in s.jobs && other != id ==> s'.jobs[other] == s.jobs[other]
    requires s'.reporting == s.reporting || (s'.reporting == s.reporting + {id} && s'.jobs[id].status == Status.Failed)
    ensures Ordered(s')
  {
    hide Line;
  }

  lemma FirstStaysWoken(waiters: seq<Waiter>)
    ensures waiters != [] && waiters[0].woken ==> WakeNext(waiters)[0].woken
  {
  }

  lemma StartedHasNoRepeats(s: Service)
    requires Ordered(s)
    ensures NoRepeats(s.started)
  {
    forall i, j | 0 <= i < j < |s.started| ensures s.started[i] != s.started[j] {
      assert s.started[i] == s.created[i] && s.started[j] == s.created[j];
    }
  }

  lemma {:induction false} InvAlways(max: nat, events: seq<Event>)
    ensures Inv(Run(max, events), max)
  {
    if events != [] {
      hide Handle, Inv;
      var s, e := Run(max, events[..|events| - 1]), events[|events| - 1];
      InvAlways(max, events[..|events| - 1]);
      match e
      case Create(inv) => InvAfterCreate(s, max, inv);
      case TaskBegins => InvAfterTaskBegins(s, max);
      case WaiterResumes => InvAfterWaiterResumes(s, max);
      case JobCompletes(id) => InvAfterCompletion(s, max, id);
      case JobFails(id) => InvAfterFailure(s, max, id);
      case NoticeEnds(id) => InvAfterNotice(s, max, id);
    }
  }

  // ----- what this means over every interleaving -----

  function RunningJobs(s: Service): set<string> {
    set id | id in s.jobs && s.jobs[id].status == Running
  }

  lemma {:induction false} SizeOfSet(ids: seq<string>)
    requires NoRepeats(ids)
    ensures |set id | id in ids| == |ids|
  {
    if ids != [] {
      var init, last := ids[..|ids| - 1], ids[|ids| - 1];
      SizeOfSet(init);
      assert (set id | id in ids) == (set id | id in init) + {last};
    }
  }

  lemma {:induction false} ActiveHasNoRepeats(jobs: map<string, Job>, started: seq<string>)
    requires NoRepeats(started)
    ensures NoRepeats(Active(jobs, started))
  {
    if started != [] {
      ActiveHasNoRepeats(jobs, started[..|started| - 1]);
    }
  }

  /** Never more than `max` jobs run or report a failure at once. */
  lemma AtMostMaxRun(max: nat, events: seq<Event>)
    ensures var s := Run(max, events); |RunningJobs(s)| + |s.reporting| <= max
    ensures var s := Run(max, events); RunningJobs(s) !! s.reporting
  {
    var s := Run(max, events);
    InvAlways(max, events);
    StartedHasNoRepeats(s);
    ActiveHasNoRepeats(s.jobs, s.started);
    SizeOfSet(Active(s.jobs, s.started));
    assert RunningJobs(s) == set id | id in Active(s.jobs, s.started);
  }

  /** Jobs start in creation order: those started are always a prefix of those created. */
  lemma JobsStartInCreationOrder(max: nat, events: seq<Event>)
    ensures var s := Run(max, events); s.started <= s.created
  {
    InvAlways(max, events);
  }

  /** Each investigation has at most one job, and its task begins, waits and runs once. */
  lemma OneJobPerInvestigation(max: nat, events: seq<Event>, a: string, b: string)
    requires var s := Run(max, events);
             a in s.jobs && b in s.jobs && s.jobs[a].investigation == s.jobs[b].investigation
    ensures a == b
    ensures NoRepeats(Line(Run(max, events)))
  {
    InvAlways(max, events);
  }

  /** No permit is left idle: once no task or woken waiter is due, a job waits only if max jobs run or report. */
  lemma WaitsOnlyWhenFull(max: nat, events: seq<Event>)
    requires var s := Run(max, events); !Enabled(s, TaskBegins) && !Enabled(s, WaiterResumes) && s.waiters != []
    ensures var s := Run(max, events); |RunningJobs(s)| + |s.reporting| == max
  {
    var s := Run(max, events);
    InvAlways(max, events);
    assert Waiting(s)[0] in Line(s);
    StartedHasNoRepeats(s);
    ActiveHasNoRepeats(s.jobs, s.started);
    SizeOfSet(Active(s.jobs, s.started));
    assert RunningJobs(s) == set id | id in Active(s.jobs, s.started);
    NoneWokenAfterFirst(max, events);
  }

  /** Woken waiters are the first ones, so a first waiter still asleep means that none is woken. */
  lemma {:induction false} NoneWokenAfterFirst(max: nat, events: seq<Event>)
    ensures var s := Run(max, events);
            && WokenFirst(s.waiters)
            && (s.waiters != [] && !s.waiters[0].woken ==> WokenCount(s.waiters) == 0)
  {
    var s := Run(max, events);
    if events != [] {
      var before := Run(max, events[..|events| - 1]);
      NoneWokenAfterFirst(max, events[..|events| - 1]);
      WokenFirstKept(before, events[|events| - 1]);
    }
    FirstAsleep(s.waiters);
  }

  ghost predicate WokenFirst(waiters: seq<Waiter>) {
    forall i, j :: 0 <= i < j < |waiters| && waiters[j].woken ==> waiters[i].woken
  }

  lemma {:induction false} FirstAsleep(waiters: seq<Waiter>)
    ensures WokenFirst(waiters) && waiters != [] && !waiters[0].woken ==> WokenCount(waiters) == 0
  {
    if |waiters| > 1 && WokenFirst(waiters) && !waiters[0].woken {
      assert WokenFirst(waiters[1..]);
      assert !waiters[1..][0].woken;
      FirstAsleep(waiters[1..]);
    }
  }

  lemma {:induction false} WakeNextKeepsOrder(waiters: seq<Waiter>)
    requires WokenFirst(waiters)
    ensures WokenFirst(WakeNext(waiters))
  {
    WakeNextFacts(waiters);
    if waiters != [] && waiters[0].woken {
      assert WokenFirst(waiters[1..]);
      WakeNextKeepsOrder(waiters[1..]);
      assert WakeNext(waiters)[1..] == WakeNext(waiters[1..]);
      forall i, j | 0 <= i < j < |waiters| && WakeNext(waiters)[j].woken ensures WakeNext(waiters)[i].woken {
        if i > 0 {
          assert WakeNext(waiters[1..])[j - 1].woken;
          assert WakeNext(waiters[1..])[i - 1].woken;
        }
      }
    }
  }

  lemma {:induction false} WakeManyKeepsOrder(s: Service)
    requires WokenFirst(s.waiters)
    ensures WokenFirst(WakeMany(s).waiters)
    decreases s.permits
  {
    if s.permits > 0 && !AllWoken(s.waiters) {
      WakeNextKeepsOrder(s.waiters);
      WakeManyKeepsOrder(s.(permits := s.permits - 1, waiters := WakeNext(s.waiters)));
    }
  }

  lemma WokenFirstKept(s: Service, e: Event)
    requires WokenFirst(s.waiters)
    ensures WokenFirst(Handle(s, e).waiters)
  {
    WakeNextKeepsOrder(s.waiters);
    if s.waiters != [] {
      WakeManyKeepsOrder(s.(waiters := s.waiters[1..]));
    }
  }

  predicate MayBecome(a: Status, b: Status) {
    a == b || (a == Queued && b == Running) || (a == Running && (b == Completed || b == Status.Failed))
  }

  /** The job is still there, for the same investigation, with the same status or the next. */
  predicate Advanced(s: Service, s': Service, id: string)
    requires id in s.jobs
  {
    id in s'.jobs && s'.jobs[id].investigation == s.jobs[id].investigation &&
        MayBecome(s.jobs[id].status, s'.jobs[id].status)
  }

  lemma AdvancesAtCreate(s: Service, inv: string, id: string)
    requires Ordered(s) && id in s.jobs
    ensures Advanced(s, Handle(s, Create(inv)), id)
  {
    hide Line, NoRepeats;
    if !Known(s, inv) && JobId(inv) == id {
      JobIdInjective(inv, s.jobs[id].investigation);
    }
  }

  lemma AdvancesAtTask(s: Service, id: string)
    requires Ordered(s) && id in s.jobs
    ensures Advanced(s, Handle(s, TaskBegins), id)
  {
    hide Ordered;
    if s.pending != [] {
      assert Line(s)[|s.started| + |s.waiters|] == s.pending[0];
      NotYetStarted(s, |s.started| + |s.waiters|);
    }
  }

  lemma AdvancesAtResume(s: Service, id: string)
    requires Ordered(s) && id in s.jobs
    ensures Advanced(s, Handle(s, WaiterResumes), id)
  {
    hide Ordered, WakeNext, AllWoken;
    if s.waiters != [] {
      assert Line(s)[|s.started|] == s.waiters[0].job;
      NotYetStarted(s, |s.started|);
    }
  }

  lemma AdvancesAtEnd(s: Service, e: Event, id: string)
    requires id in s.jobs && (e.JobCompletes? || e.JobFails? || e.NoticeEnds?)
    ensures Advanced(s, Handle(s, e), id)
  {
    hide WakeNext, AllWoken;
  }

  /** An event changes a job's status only from queued to running or from running to an end; no job disappears. */
  lemma StatusOnlyAdvances(max: nat, events: seq<Event>, e: Event, id: string)
    requires id in Run(max, events).jobs
    ensures Advanced(Run(max, events), Handle(Run(max, events), e), id)
  {
    hide Run, Handle, Advanced, Ordered, PermitsBalance;
    var s := Run(max, events);
    InvAlways(max, events);
    match e
    case Create(inv) => AdvancesAtCreate(s, inv, id);
    case TaskBegins => AdvancesAtTask(s, id);
    case WaiterResumes => AdvancesAtResume(s, id);
    case _ => AdvancesAtEnd(s, e, id);
  }

  // ----- the module's state as it is updated -----

  class Api {
    var jobs: map<string, Job>
    var created: seq<string>
    var pending: seq<string>
    var permits: nat
    var waiters: seq<Waiter>
    var started: seq<string>
    var reporting: set<string>

    ghost function View(): Service
      reads this
    {
      Service(jobs, created, pending, permits, waiters, started, reporting)
    }

    constructor (maxConcurrentJobs: nat)
      ensures View() == Initially(maxConcurrentJobs)
    {
      jobs, created, pending, permits, waiters, started, reporting := map[], [], [], maxConcurrentJobs, [], [], {};
    }

    /** Scan the table for the investigation; create a job and its task only if it is not there. */
    method CreateInvestigation(investigation: string) returns (id: string)
      requires Ordered(View())
      modifies this
      ensures View() == Handle(old(View()), Create(investigation))
      ensures id in jobs && jobs[id].investigation == investigation
    {
      for i := 0 to |created|
        invariant forall k :: 0 <= k < i ==> jobs[created[k]].investigation != investigation
      {
        assert created[i] in jobs;
        if jobs[created[i]].investigation == investigation {
          return created[i];
        }
      }
      id := JobId(investigation);
      jobs := jobs[id := Job(investigation, Queued)];
      created := created + [id];
      pending := pending + [id];
    }

    /** A task runs up to the semaphore: it takes a free permit if nobody waits, or joins the line. */
    method TaskRuns()
      requires Enabled(View(), TaskBegins)
      modifies this
      ensures View() == Handle(old(View()), TaskBegins)
    {
      var id := pending[0];
      pending := pending[1..];
      if permits > 0 && waiters == [] {
        permits := permits - 1;
        MarkRunning(id);
      } else {
        waiters := waiters + [Waiter(id, false)];
      }
    }

    method MarkRunning(id: string)
      requires id in jobs
      modifies this
      ensures View() == Started(old(View()), id)
    {
      jobs := jobs[id := jobs[id].(status := Running)];
      started := started + [id];
    }

    /** A woken task leaves the line, wakes as many others as permits allow, and runs. */
    method WaiterRuns()
      requires Enabled(View(), WaiterResumes)
      modifies this
      ensures View() == Handle(old(View()), WaiterResumes)
    {
      hide WakeNext, WokenCount, Waiting;
      var id := waiters[0].job;
      waiters := waiters[1..];
      ghost var s1 := View();
      while permits > 0 && exists w :: w in waiters && !w.woken
        invariant WakeMany(View()) == WakeMany(s1) && id in jobs
        decreases permits
      {
        permits := permits - 1;
        waiters := WakeNext(waiters);
      }
      WakeManyFacts(s1);
      MarkRunning(id);
    }

    method CompleteJob(id: string)
      requires Enabled(View(), JobCompletes(id))
      modifies this
      ensures View() == Handle(old(View()), JobCompletes(id))
    {
      jobs := jobs[id := jobs[id].(status := Completed)];
      ReleasePermit();
    }

    /** The status is failed while the notice is being sent; the permit is kept until that ends. */
    method FailJob(id: string)
      requires Enabled(View(), JobFails(id))
      modifies this
      ensures View() == Handle(old(View()), JobFails(id))
    {
      jobs := jobs[id := jobs[id].(status := Status.Failed)];
      reporting := reporting + {id};
    }

    method FinishNotice(id: string)
      requires Enabled(View(), NoticeEnds(id))
      modifies this
      ensures View() == Handle(old(View()), NoticeEnds(id))
    {
      reporting := reporting - {id};
      ReleasePermit();
    }

    /** The permit goes to the first waiter still asleep, if any. */
    method ReleasePermit()
      modifies this`permits, this`waiters
      ensures View() == Release(old(View()))
    {
      permits := permits + 1;
      if exists w :: w in waiters && !w.woken {
        permits := permits - 1;
        waiters := WakeNext(waiters);
      }
    }
  }
}
