/**
 * Jobs and their posts together: many jobs run at once and share one log of posts, each job sending its
 * result or its failure notice attempt by attempt. Every event is what happens between two awaits.
 */
module Delivery {
  import opened Callback
  import J = JobService

  /** A submission under way: its payload and how many attempts have been answered. */
  datatype Sending = Sending(payload: Payload, attempts: nat)

  /** `history` is what the job service has gone through; its state follows from it. */
  datatype World = World(history: seq<J.Event>, log: seq<Post>, sending: map<string, Sending>)

  datatype Event =
    | Create(investigation: string)
    | TaskBegins
    | WaiterResumes
    | GraphEnds(job: string, result: Payload)
    | RunFails(job: string)
    | Reply(job: string, response: Response)

  const START := World([], [], map[])

  function Service(max: nat, w: World): J.Service {
    J.Run(max, w.history)
  }

  function Step(w: World, e: J.Event): World {
    w.(history := w.history + [e])
  }

  /** The job is running and not yet submitting its result. */
  predicate Working(max: nat, w: World, job: string) {
    J.IsRunning(Service(max, w).jobs, job) && job !in w.sending
  }

  /** The job has failed; its notice is submitted unless there is no key to submit with. */
  function Failing(w: World, job: string, hasKey: bool): World {
    var w1 := Step(w, J.JobFails(job));
    if hasKey then w1.(sending := w1.sending[job := Sending(FailureNotice, 0)])
    else Step(w1, J.NoticeEnds(job))
  }

  /** The submission under way is over. */
  function Over(w: World, job: string): World {
    w.(sending := w.sending - {job})
  }

  function Handle(max: nat, hasKey: bool, w: World, e: Event): World {
    match e
    case Create(inv) => Step(w, J.Create(inv))
    case TaskBegins => Step(w, J.TaskBegins)
    case WaiterResumes => Step(w, J.WaiterResumes)
    case GraphEnds(job, result) =>
      if !Working(max, w, job) || !result.Success? then w
      else if hasKey then w.(sending := w.sending[job := Sending(result, 0)])
      else Failing(w, job, hasKey)
    case RunFails(job) => if Working(max, w, job) then Failing(w, job, hasKey) else w
    case Reply(job, response) =>
      if job !in w.sending then w
      else
        var s := w.sending[job];
        var w1 := w.(log := w.log + [Post(job, s.payload, response)]);
        if Delivers(response) then
          Step(Over(w1, job), if s.payload.Success? then J.JobCompletes(job) else J.NoticeEnds(job))
        else if s.attempts + 1 < MAX_ATTEMPTS then
          w1.(sending := w1.sending[job := Sending(s.payload, s.attempts + 1)])
        else if s.payload.Success? then Failing(Over(w1, job), job, true)
        else Step(Over(w1, job), J.NoticeEnds(job))
  }

  function Run(max: nat, hasKey: bool, events: seq<Event>): World {
    if events == [] then START
    else Handle(max, hasKey, Run(max, hasKey, events[..|events| - 1]), events[|events| - 1])
  }

  /** The posts that carry one job's key, in order. */
  function PostsOf(log: seq<Post>, job: string): seq<Post> {
    if log == [] then []
    else PostsOf(log[..|log| - 1], job) + if log[|log| - 1].key == job then [log[|log| - 1]] else []
  }

  // ----- what is known of one job -----

  ghost predicate Undelivered(posts: seq<Post>) {
    forall p :: p in posts ==> !IsDelivered(p)
  }

  ghost predicate AllCarry(posts: seq<Post>, payload: Payload) {
    forall p :: p in posts ==> p.payload == payload
  }

  /** One submission ended with an attempt that returned: it came last and was the only one. */
  ghost predicate Succeeded(posts: seq<Post>) {
    && 1 <= |posts| <= MAX_ATTEMPTS && IsDelivered(posts[|posts| - 1]) && Undelivered(posts[..|posts| - 1])
    && posts[0].payload.Success? && AllCarry(posts, posts[0].payload)
  }

  /** At most two submissions, of which none but the last attempt, and that with a notice, returned. */
  ghost predicate GaveUp(posts: seq<Post>) {
    && |posts| <= 2 * MAX_ATTEMPTS
    && (posts != [] ==> Undelivered(posts[..|posts| - 1]))
    && (posts != [] && IsDelivered(posts[|posts| - 1]) ==> posts[|posts| - 1].payload == FailureNotice)
  }

  /** A job's posts so far, by its status and the submission it has under way. */
  ghost predicate JobOk(status: Status, underWay: bool, sending: Sending, posts: seq<Post>) {
    match status
    case Queued => !underWay && posts == []
    case Running =>
      if underWay
      then sending.payload.Success? && |posts| == sending.attempts < MAX_ATTEMPTS && Undelivered(posts)
           && AllCarry(posts, sending.payload)
      else posts == []
    case Completed => !underWay && Succeeded(posts)
    case Failed =>
      if underWay
      then sending.payload == FailureNotice && sending.attempts < MAX_ATTEMPTS
           && |posts| <= MAX_ATTEMPTS + sending.attempts && Undelivered(posts)
      else GaveUp(posts)
  }

  const NONE := Sending(FailureNotice, 0)

  function SendingOf(w: World, job: string): Sending {
    if job in w.sending then w.sending[job] else NONE
  }

  ghost predicate Ok(max: nat, w: World, job: string) {
    if job in Service(max, w).jobs
    then JobOk(Service(max, w).jobs[job].status, job in w.sending, SendingOf(w, job), PostsOf(w.log, job))
    else job !in w.sending && PostsOf(w.log, job) == []
  }

  /** Jobs sending a notice are those the service has reporting. */
  ghost predicate NoticesMatch(max: nat, w: World) {
    forall job :: job in Service(max, w).reporting <==> job in w.sending && w.sending[job].payload == FailureNotice
  }

  ghost predicate Inv(max: nat, w: World) {
    NoticesMatch(max, w) && forall job :: Ok(max, w, job)
  }

  // ----- steps of the service -----

  lemma ServiceAfter(max: nat, w: World, e: J.Event)
    ensures Service(max, Step(w, e)) == J.Handle(Service(max, w), e)
  {
    hide J.Handle;
    assert Step(w, e).history[..|w.history|] == w.history;
  }

  /** A job's status after a step that starts or creates jobs: as before, new, or from queued to running. */
  lemma StartsOnly(max: nat, w: World, e: J.Event, job: string)
    requires e.Create? || e.TaskBegins? || e.WaiterResumes?
    ensures var s, s' := Service(max, w), J.Handle(Service(max, w), e);
            && s'.reporting == s.reporting
            && (job in s.jobs ==> job in s'.jobs && (s'.jobs[job].status == s.jobs[job].status ||
                                                     (s.jobs[job].status == Queued && s'.jobs[job].status == Running)))
            && (job !in s.jobs && job in s'.jobs ==> s'.jobs[job].status == Queued)
  {
    hide J.Run;
    var s := Service(max, w);
    J.InvAlways(max, w.history);
    StartReports(s, e);
    if job in s.jobs {
      StatusMoves(s, e, job);
    } else {
      NewIsQueued(s, e, job);
    }
  }

  lemma StartReports(s: J.Service, e: J.Event)
    requires e.Create? || e.TaskBegins? || e.WaiterResumes?
    ensures J.Handle(s, e).reporting == s.reporting
  {
    hide J.AllWoken, J.WakeNext, J.Known;
  }

  lemma StatusMoves(s: J.Service, e: J.Event, job: string)
    requires J.Ordered(s) && job in s.jobs && (e.Create? || e.TaskBegins? || e.WaiterResumes?)
    ensures var s' := J.Handle(s, e);
            job in s'.jobs && (s'.jobs[job].status == s.jobs[job].status ||
                               (s.jobs[job].status == Queued && s'.jobs[job].status == Running))
  {
    hide J.Ordered;
    match e
    case Create(inv) => J.AdvancesAtCreate(s, inv, job); CreateKeeps(s, inv, job);
    case TaskBegins => J.AdvancesAtTask(s, job); TaskKeeps(s, job);
    case WaiterResumes => J.AdvancesAtResume(s, job); ResumeKeeps(s, job);
  }

  lemma CreateKeeps(s: J.Service, inv: string, job: string)
    requires J.Ordered(s) && job in s.jobs
    ensures J.Handle(s, J.Create(inv)).jobs[job].status == s.jobs[job].status
  {
    hide J.Line;
    if !J.Known(s, inv) && J.JobId(inv) == job {
      J.JobIdInjective(inv, s.jobs[job].investigation);
    }
  }

  lemma TaskKeeps(s: J.Service, job: string)
    requires job in s.jobs
    ensures var s' := J.Handle(s, J.TaskBegins);
            job in s'.jobs && (s'.jobs[job].status == s.jobs[job].status || s'.jobs[job].status == Running)
    ensures var s' := J.Handle(s, J.TaskBegins);
            job in s'.jobs && s'.jobs[job].status != s.jobs[job].status ==> s.pending != [] && s.pending[0] == job
  {
  }

  lemma ResumeKeeps(s: J.Service, job: string)
    requires job in s.jobs
    ensures var s' := J.Handle(s, J.WaiterResumes);
            job in s'.jobs && (s'.jobs[job].status == s.jobs[job].status || s'.jobs[job].status == Running)
  {
    hide J.AllWoken, J.WakeNext;
  }

  lemma NewIsQueued(s: J.Service, e: J.Event, job: string)
    requires job !in s.jobs && (e.Create? || e.TaskBegins? || e.WaiterResumes?)
    ensures job in J.Handle(s, e).jobs ==> J.Handle(s, e).jobs[job].status == Queued
  {
    hide J.AllWoken, J.WakeNext, J.Known;
  }

  lemma OkAfterStart(max: nat, w: World, e: J.Event, job: string)
    requires Inv(max, w) && (e.Create? || e.TaskBegins? || e.WaiterResumes?)
    ensures Ok(max, Step(w, e), job)
  {
    hide Service, JobOk, PostsOf;
    ServiceAfter(max, w, e);
    StartsOnly(max, w, e, job);
    assert Ok(max, w, job);
    QueuedMayRun(job in w.sending, SendingOf(w, job), PostsOf(w.log, job));
  }

  lemma QueuedMayRun(underWay: bool, sending: Sending, posts: seq<Post>)
    ensures JobOk(Queued, underWay, sending, posts) ==> JobOk(Running, underWay, sending, posts)
    ensures !underWay && posts == [] ==> JobOk(Queued, underWay, sending, posts)
  {
  }

  lemma InvAfterStart(max: nat, w: World, e: J.Event)
    requires Inv(max, w) && (e.Create? || e.TaskBegins? || e.WaiterResumes?)
    ensures Inv(max, Step(w, e))
  {
    hide Ok, Service;
    ServiceAfter(max, w, e);
    StartsOnly(max, w, e, "");
    forall job ensures Ok(max, Step(w, e), job) {
      OkAfterStart(max, w, e, job);
    }
  }

  // ----- steps of one job -----

  /** w' differs from w in one job alone: its status, its submission and its posts. */
  ghost predicate OnlyJob(max: nat, w: World, w': World, job: string) {
    && (forall other :: other != job ==>
          && (other in Service(max, w').jobs <==> other in Service(max, w).jobs)
          && (other in Service(max, w).jobs ==>
                Service(max, w').jobs[other].status == Service(max, w).jobs[other].status)
          && (other in w'.sending <==> other in w.sending) && SendingOf(w', other) == SendingOf(w, other)
          && PostsOf(w'.log, other) == PostsOf(w.log, other)
          && (other in Service(max, w').reporting <==> other in Service(max, w).reporting))
  }

  lemma InvOfOneJob(max: nat, w: World, w': World, job: string)
    requires Inv(max, w) && OnlyJob(max, w, w', job) && Ok(max, w', job)
    requires job in Service(max, w').reporting <==> job in w'.sending && w'.sending[job].payload == FailureNotice
    ensures Inv(max, w')
  {
    hide Service, JobOk, PostsOf;
    forall other ensures Ok(max, w', other) {
      if other != job {
        assert Ok(max, w, other);
      }
    }
    forall other ensures other in Service(max, w').reporting <==>
                         other in w'.sending && w'.sending[other].payload == FailureNotice {
      if other != job && other in w.sending {
        assert SendingOf(w', other) == SendingOf(w, other);
      }
    }
  }

  lemma SameService(max: nat, w: World, w': World, job: string)
    requires w'.history == w.history && w'.sending - {job} == w.sending - {job}
    requires forall other :: other != job ==> PostsOf(w'.log, other) == PostsOf(w.log, other)
    ensures Service(max, w') == Service(max, w) && OnlyJob(max, w, w', job)
  {
    hide J.Run, PostsOf;
    SameSending(w, w', job);
  }

  lemma SameSending(w: World, w': World, job: string)
    requires w'.sending - {job} == w.sending - {job}
    ensures forall other :: other != job ==>
              (other in w'.sending <==> other in w.sending) && SendingOf(w', other) == SendingOf(w, other)
  {
    forall other | other != job
      ensures (other in w'.sending <==> other in w.sending) && SendingOf(w', other) == SendingOf(w, other)
    {
      assert other in w'.sending - {job} <==> other in w'.sending;
      assert other in w.sending - {job} <==> other in w.sending;
      if other in w.sending {
        assert (w.sending - {job})[other] == w.sending[other];
        assert (w'.sending - {job})[other] == w'.sending[other];
      }
    }
  }

  /** One end of one job leaves all other jobs alone. */
  lemma EndIsOneJob(max: nat, w: World, w': World, job: string)
    requires Service(max, w').jobs.Keys == Service(max, w).jobs.Keys
    requires forall other :: other in Service(max, w).jobs && other != job ==>
               Service(max, w').jobs[other] == Service(max, w).jobs[other]
    requires forall other :: other != job ==>
               (other in Service(max, w').reporting <==> other in Service(max, w).reporting)
    requires w'.sending - {job} == w.sending - {job}
    requires forall other :: other != job ==> PostsOf(w'.log, other) == PostsOf(w.log, other)
    ensures OnlyJob(max, w, w', job)
  {
    hide Service, PostsOf;
    SameSending(w, w', job);
    assert forall other :: other in Service(max, w').jobs.Keys <==> other in Service(max, w).jobs.Keys;
  }

  lemma {:induction false} PostsAppend(log: seq<Post>, p: Post, job: string)
    ensures PostsOf(log + [p], job) == PostsOf(log, job) + if p.key == job then [p] else []
  {
    assert (log + [p])[..|log|] == log;
  }

  /** How the three ends of a job change the service. */
  lemma EndsOnly(max: nat, w: World, e: J.Event, job: string)
    requires e == J.JobCompletes(job) || e == J.JobFails(job) || e == J.NoticeEnds(job)
    requires J.Enabled(Service(max, w), e)
    ensures var s, s' := Service(max, w), Service(max, Step(w, e));
            && s'.jobs.Keys == s.jobs.Keys
            && (forall other :: other in s.jobs && other != job ==> s'.jobs[other] == s.jobs[other])
            && s'.reporting == (if e.JobFails? then s.reporting + {job}
                                else if e.NoticeEnds? then s.reporting - {job} else s.reporting)
            && (job in s.jobs ==> s'.jobs[job].status == (if e.JobCompletes? then Completed
                                                          else if e.JobFails? then Failed else s.jobs[job].status))
  {
    ServiceAfter(max, w, e);
    hide Service, J.AllWoken, J.WakeNext;
  }

  lemma ReportingHasFailed(max: nat, w: World, job: string)
    requires job in Service(max, w).reporting
    ensures job in Service(max, w).jobs && Service(max, w).jobs[job].status == Failed
  {
    J.InvAlways(max, w.history);
    hide J.Run;
  }

  /** A job whose run failed, or whose result did not get through, goes over to its notice. */
  lemma InvAfterFailing(max: nat, w0: World, w: World, job: string, hasKey: bool)
    requires Inv(max, w0) && w.history == w0.history && w.sending == w0.sending - {job}
    requires forall other :: other != job ==> PostsOf(w.log, other) == PostsOf(w0.log, other)
    requires J.IsRunning(Service(max, w0).jobs, job)
    requires |PostsOf(w.log, job)| <= MAX_ATTEMPTS && Undelivered(PostsOf(w.log, job))
    ensures Inv(max, Failing(w, job, hasKey))
  {
    var w1, w' := Step(w, J.JobFails(job)), Failing(w, job, hasKey);
    EndsOnly(max, w, J.JobFails(job), job);
    if !hasKey {
      EndsOnly(max, w1, J.NoticeEnds(job), job);
    }
    hide J.Run, PostsOf, Step;
    assert Service(max, w) == Service(max, w0);
    assert w'.log == w.log && (hasKey ==> w'.history == w1.history) by { FailingKeeps(w, job, hasKey); }
    assert Service(max, w').jobs[job].status == Failed;
    FailedOk(hasKey, PostsOf(w'.log, job));
    hide OnlyJob;
    EndIsOneJob(max, w0, w', job);
    InvOfOneJob(max, w0, w', job);
  }

  lemma FailingKeeps(w: World, job: string, hasKey: bool)
    ensures Failing(w, job, hasKey).log == w.log
    ensures hasKey ==> Failing(w, job, hasKey).history == Step(w, J.JobFails(job)).history
  {
  }

  lemma FailedOk(underWay: bool, posts: seq<Post>)
    requires |posts| <= MAX_ATTEMPTS && Undelivered(posts)
    ensures JobOk(Failed, underWay, NONE, posts)
  {
    if posts != [] {
      assert posts[|posts| - 1] in posts;
      forall p | p in posts[..|posts| - 1] ensures p in posts {
      }
    }
  }

  /** The graph ended and the result is being submitted. */
  lemma InvAfterSubmit(max: nat, w: World, job: string, result: Payload)
    requires Inv(max, w) && Working(max, w, job) && result.Success?
    ensures Inv(max, w.(sending := w.sending[job := Sending(result, 0)]))
  {
    var w' := w.(sending := w.sending[job := Sending(result, 0)]);
    SameService(max, w, w', job);
    hide J.Run, PostsOf, OnlyJob;
    assert Ok(max, w, job);
    assert job !in Service(max, w).reporting;
    InvOfOneJob(max, w, w', job);
  }

  /** A submission under way: a result of a running job, or a notice of a failed one. */
  lemma UnderWay(max: nat, w: World, job: string)
    requires Inv(max, w) && job in w.sending
    ensures var s, posts := w.sending[job], PostsOf(w.log, job);
            && job in Service(max, w).jobs && s.attempts < MAX_ATTEMPTS && Undelivered(posts)
            && (s.payload.Success? ==>
                  J.IsRunning(Service(max, w).jobs, job) && |posts| == s.attempts && AllCarry(posts, s.payload))
            && (!s.payload.Success? ==>
                  && s.payload == FailureNotice && Service(max, w).jobs[job].status == Failed
                  && job in Service(max, w).reporting && |posts| <= MAX_ATTEMPTS + s.attempts)
  {
    hide Service, PostsOf;
    assert Ok(max, w, job);
  }

  /** What one more post makes of a job's posts. */
  lemma OneMorePost(posts: seq<Post>, p: Post)
    requires Undelivered(posts)
    ensures !IsDelivered(p) ==> Undelivered(posts + [p])
    ensures |posts| < MAX_ATTEMPTS && p.payload.Success? && AllCarry(posts, p.payload) && IsDelivered(p) ==>
              Succeeded(posts + [p])
    ensures |posts| < 2 * MAX_ATTEMPTS && p.payload == FailureNotice ==> GaveUp(posts + [p])
    ensures AllCarry(posts, p.payload) ==> AllCarry(posts + [p], p.payload)
  {
    var more := posts + [p];
    assert more[..|more| - 1] == posts && more[|more| - 1] == p;
    assert posts != [] ==> more[0] == posts[0] && posts[0] in posts;
  }

  lemma PostsAfterReply(w: World, job: string, payload: Payload, response: Response)
    ensures var log := w.log + [Post(job, payload, response)];
            && PostsOf(log, job) == PostsOf(w.log, job) + [Post(job, payload, response)]
            && forall other :: other != job ==> PostsOf(log, other) == PostsOf(w.log, other)
  {
    hide PostsOf;
    var p := Post(job, payload, response);
    PostsAppend(w.log, p, job);
    forall other | other != job ensures PostsOf(w.log + [p], other) == PostsOf(w.log, other) {
      PostsAppend(w.log, p, other);
    }
  }

  /** A reply that ends the submission for good: the result returned, or the notice is over. */
  lemma InvAfterLastReply(max: nat, w: World, job: string, response: Response)
    requires Inv(max, w) && job in w.sending
    requires if w.sending[job].payload.Success? then Delivers(response)
             else Delivers(response) || w.sending[job].attempts + 1 >= MAX_ATTEMPTS
    ensures var w1 := Over(w.(log := w.log + [Post(job, w.sending[job].payload, response)]), job);
            Inv(max, Step(w1, if w.sending[job].payload.Success? then J.JobCompletes(job) else J.NoticeEnds(job)))
  {
    var s := w.sending[job];
    var w1 := Over(w.(log := w.log + [Post(job, s.payload, response)]), job);
    var e := if s.payload.Success? then J.JobCompletes(job) else J.NoticeEnds(job);
    UnderWay(max, w, job);
    PostsAfterReply(w, job, s.payload, response);
    OneMorePost(PostsOf(w.log, job), Post(job, s.payload, response));
    assert Service(max, w1) == Service(max, w);
    EndsOnly(max, w1, e, job);
    var w' := Step(w1, e);
    assert w'.log == w1.log && w'.sending == w1.sending;
    hide J.Run, PostsOf, Step, Undelivered, AllCarry, Succeeded, GaveUp, OnlyJob;
    EndIsOneJob(max, w, w', job);
    InvOfOneJob(max, w, w', job);
  }

  lemma InvAfterRetry(max: nat, w: World, job: string, response: Response)
    requires Inv(max, w) && job in w.sending && !Delivers(response) && w.sending[job].attempts + 1 < MAX_ATTEMPTS
    ensures var s := w.sending[job];
            Inv(max, w.(log := w.log + [Post(job, s.payload, response)],
                        sending := w.sending[job := Sending(s.payload, s.attempts + 1)]))
  {
    var s := w.sending[job];
    var w' := w.(log := w.log + [Post(job, s.payload, response)],
                 sending := w.sending[job := Sending(s.payload, s.attempts + 1)]);
    UnderWay(max, w, job);
    PostsAfterReply(w, job, s.payload, response);
    OneMorePost(PostsOf(w.log, job), Post(job, s.payload, response));
    SameService(max, w, w', job);
    hide J.Run, PostsOf, Undelivered, AllCarry, Succeeded, GaveUp, OnlyJob;
    InvOfOneJob(max, w, w', job);
  }

  /** The third attempt with a result did not return either. */
  lemma InvAfterExhausted(max: nat, w: World, job: string, response: Response)
    requires Inv(max, w) && job in w.sending && w.sending[job].payload.Success?
    requires !Delivers(response) && w.sending[job].attempts + 1 >= MAX_ATTEMPTS
    ensures Inv(max, Failing(Over(w.(log := w.log + [Post(job, w.sending[job].payload, response)]), job), job, true))
  {
    var s := w.sending[job];
    var w1 := Over(w.(log := w.log + [Post(job, s.payload, response)]), job);
    UnderWay(max, w, job);
    PostsAfterReply(w, job, s.payload, response);
    OneMorePost(PostsOf(w.log, job), Post(job, s.payload, response));
    hide Service, PostsOf, Inv, Failing;
    InvAfterFailing(max, w, w1, job, true);
  }

  lemma InvAfterReply(max: nat, hasKey: bool, w: World, job: string, response: Response)
    requires Inv(max, w) && job in w.sending
    ensures Inv(max, Handle(max, hasKey, w, Reply(job, response)))
  {
    hide Inv, Failing, Step, Over, Delivers;
    var s := w.sending[job];
    if Delivers(response) || (!s.payload.Success? && s.attempts + 1 >= MAX_ATTEMPTS) {
      InvAfterLastReply(max, w, job, response);
    } else if s.attempts + 1 < MAX_ATTEMPTS {
      InvAfterRetry(max, w, job, response);
    } else {
      InvAfterExhausted(max, w, job, response);
    }
  }

  lemma InvAfterRunFails(max: nat, hasKey: bool, w: World, job: string)
    requires Inv(max, w) && Working(max, w, job)
    ensures Inv(max, Failing(w, job, hasKey))
  {
    assert Ok(max, w, job);
    hide Service, PostsOf, Failing;
    assert PostsOf(w.log, job) == [];
    InvAfterFailing(max, w, w, job, hasKey);
  }

  lemma InvAfterEvent(max: nat, hasKey: bool, w: World, e: Event)
    requires Inv(max, w)
    ensures Inv(max, Handle(max, hasKey, w, e))
  {
    hide Inv, Failing, Working, Step;
    match e
    case Create(inv) => InvAfterStart(max, w, J.Create(inv));
    case TaskBegins => InvAfterStart(max, w, J.TaskBegins);
    case WaiterResumes => InvAfterStart(max, w, J.WaiterResumes);
    case GraphEnds(job, result) =>
      if Working(max, w, job) && result.Success? {
        if hasKey { InvAfterSubmit(max, w, job, result); } else { InvAfterRunFails(max, hasKey, w, job); }
      }
    case RunFails(job) => if Working(max, w, job) { InvAfterRunFails(max, hasKey, w, job); }
    case Reply(job, response) => if job in w.sending { InvAfterReply(max, hasKey, w, job, response); }
  }

  lemma {:induction false} InvAlways(max: nat, hasKey: bool, events: seq<Event>)
    ensures Inv(max, Run(max, hasKey, events))
  {
    if events == [] {
      assert Service(max, START) == J.Initially(max);
    } else {
      hide Inv, Handle;
      InvAlways(max, hasKey, events[..|events| - 1]);
      InvAfterEvent(max, hasKey, Run(max, hasKey, events[..|events| - 1]), events[|events| - 1]);
    }
  }

  // ----- what this means over every interleaving -----

  lemma {:induction false} DeliveredOfUndelivered(posts: seq<Post>)
    requires Undelivered(posts)
    ensures DeliveredPosts(posts) == []
  {
    NoneDelivered(posts);
  }

  /** What a job's status says of its posts. */
  ghost predicate Told(status: Status, posts: seq<Post>) {
    && |posts| <= 2 * MAX_ATTEMPTS && |DeliveredPosts(posts)| <= 1
    && (status == Completed ==>
          && |posts| <= MAX_ATTEMPTS && |DeliveredPosts(posts)| == 1
          && exists result: Payload :: result.Success? && AllCarry(posts, result))
    && (status != Completed ==> forall p :: p in DeliveredPosts(posts) ==> p.payload == FailureNotice)
  }

  /**
   * In every interleaving, of a completed job's posts in the shared log exactly one returned, all of them
   * carry the same result and there are three at most; of a failed job's posts none with a result returned,
   * and at most one with the notice; and no job ever has more than six.
   */
  lemma PostsOfEveryJob(max: nat, hasKey: bool, events: seq<Event>, job: string)
    requires var w := Run(max, hasKey, events); job in Service(max, w).jobs
    ensures var w := Run(max, hasKey, events); Told(Service(max, w).jobs[job].status, PostsOf(w.log, job))
  {
    hide Run, Service, PostsOf, JobOk, Told;
    var w := Run(max, hasKey, events);
    InvAlways(max, hasKey, events);
    assert Ok(max, w, job);
    PostsOfOneJob(Service(max, w).jobs[job].status, job in w.sending, SendingOf(w, job), PostsOf(w.log, job));
  }

  lemma PostsOfOneJob(status: Status, underWay: bool, sending: Sending, posts: seq<Post>)
    requires JobOk(status, underWay, sending, posts)
    ensures Told(status, posts)
  {
    hide DeliveredPosts, IsDelivered;
    if Undelivered(posts) {
      DeliveredOfUndelivered(posts);
    } else {
      OnlyTheLast(posts);
    }
  }

  lemma OnlyTheLast(posts: seq<Post>)
    requires posts != [] && Undelivered(posts[..|posts| - 1]) && !Undelivered(posts)
    ensures IsDelivered(posts[|posts| - 1]) && DeliveredPosts(posts) == [posts[|posts| - 1]]
  {
    var last := posts[|posts| - 1];
    assert forall p :: p in posts ==> p in posts[..|posts| - 1] || p == last;
    forall i | 0 <= i < |posts| - 1 ensures !IsDelivered(posts[i]) {
      assert posts[i] in posts[..|posts| - 1];
    }
    OnlyLastDelivered(posts);
  }

  /** The bound on running and reporting jobs holds of this system too, since its service is the job service. */
  lemma AtMostMaxRun(max: nat, hasKey: bool, events: seq<Event>)
    ensures var s := Service(max, Run(max, hasKey, events)); |J.RunningJobs(s)| + |s.reporting| <= max
    ensures var w := Run(max, hasKey, events);
            forall job :: job in Service(max, w).reporting <==>
                          job in w.sending && w.sending[job].payload == FailureNotice
  {
    J.AtMostMaxRun(max, Run(max, hasKey, events).history);
    InvAlways(max, hasKey, events);
  }

  // ----- both ends can be reached -----

  lemma RunOne(max: nat, hasKey: bool, events: seq<Event>, e: Event)
    ensures Run(max, hasKey, events + [e]) == Handle(max, hasKey, Run(max, hasKey, events), e)
  {
    hide Handle;
    assert (events + [e])[..|events|] == events;
  }

  /** Without a key to submit with, nothing is ever posted. */
  lemma {:induction false} NothingWithoutKey(max: nat, events: seq<Event>)
    ensures var w := Run(max, false, events); w.log == [] && w.sending == map[]
  {
    if events != [] {
      hide Service, J.IsRunning;
      NothingWithoutKey(max, events[..|events| - 1]);
    }
  }

  /** A running job whose result is answered 200 with a readable body is completed by that one post. */
  lemma GoodReplyCompletes(max: nat, events: seq<Event>, job: string, result: Payload)
    requires Working(max, Run(max, true, events), job) && result.Success?
    ensures var w := Run(max, true, events + [GraphEnds(job, result), Reply(job, Http(200, true))]);
            && job in Service(max, w).jobs && Service(max, w).jobs[job].status == Completed && job !in w.sending
            && PostsOf(w.log, job) == [Post(job, result, Http(200, true))]
  {
    var w0, sent := Run(max, true, events), events + [GraphEnds(job, result)];
    RunOne(max, true, events, GraphEnds(job, result));
    RunOne(max, true, sent, Reply(job, Http(200, true)));
    assert events + [GraphEnds(job, result), Reply(job, Http(200, true))] == sent + [Reply(job, Http(200, true))];
    InvAlways(max, true, events);
    assert Ok(max, w0, job);
    NothingPostedYet(max, w0, job);
    hide Run, Service, PostsOf, Inv;
    PostsAfterReply(w0, job, result, Http(200, true));
    var w1 := w0.(sending := w0.sending[job := Sending(result, 0)]);
    CompletesNow(max, w0, Over(w1.(log := w0.log + [Post(job, result, Http(200, true))]), job), job);
  }

  lemma NothingPostedYet(max: nat, w: World, job: string)
    requires Inv(max, w) && Working(max, w, job)
    ensures PostsOf(w.log, job) == []
  {
    hide Service, PostsOf;
    assert Ok(max, w, job);
  }

  lemma CompletesNow(max: nat, w0: World, w: World, job: string)
    requires w.history == w0.history && J.IsRunning(Service(max, w0).jobs, job)
    ensures var s := Service(max, Step(w, J.JobCompletes(job))); job in s.jobs && s.jobs[job].status == Completed
  {
    EndsOnly(max, w, J.JobCompletes(job), job);
  }

  /** Three attempts with the result and three with the notice: a backend that never answers gets six posts. */
  lemma SixPostsAreAttained(max: nat, events: seq<Event>, job: string, result: Payload)
    requires Working(max, Run(max, true, events), job) && result.Success?
    ensures var r := Reply(job, NoResponse);
            var w := Run(max, true, events + [GraphEnds(job, result), r, r, r, r, r, r]);
            && job in Service(max, w).jobs && Service(max, w).jobs[job].status == Failed && job !in w.sending
            && |PostsOf(w.log, job)| == 6
  {
    hide *;
    var r, e0 := Reply(job, NoResponse), events + [GraphEnds(job, result)];
    BeginsSending(max, events, job, result);
    ResentTwice(max, e0, job);
    var e3 := e0 + [r, r] + [r];
    GivesUpResult(max, e0 + [r, r], job);
    ResentTwice(max, e3, job);
    GivesUpNotice(max, e3 + [r, r], job);
    assert events + [GraphEnds(job, result), r, r, r, r, r, r] == e3 + [r, r] + [r];
  }

  lemma BeginsSending(max: nat, events: seq<Event>, job: string, result: Payload)
    requires Working(max, Run(max, true, events), job) && result.Success?
    ensures var w := Run(max, true, events + [GraphEnds(job, result)]);
            job in w.sending && w.sending[job] == Sending(result, 0) && PostsOf(w.log, job) == []
  {
    InvAlways(max, true, events);
    NothingPostedYet(max, Run(max, true, events), job);
    RunOne(max, true, events, GraphEnds(job, result));
    hide Run, PostsOf;
  }

  lemma ResentTwice(max: nat, events: seq<Event>, job: string)
    requires var w := Run(max, true, events); job in w.sending && w.sending[job].attempts == 0
    ensures var r := Reply(job, NoResponse);
            var w, w' := Run(max, true, events), Run(max, true, events + [r, r]);
            && job in w'.sending && w'.sending[job] == Sending(w.sending[job].payload, 2)
            && |PostsOf(w'.log, job)| == |PostsOf(w.log, job)| + 2
  {
    hide *;
    var r := Reply(job, NoResponse);
    Resent(max, events, job);
    Resent(max, events + [r], job);
    assert events + [r, r] == events + [r] + [r];
  }

  /** An attempt without an answer that is not the third is followed by another. */
  lemma Resent(max: nat, events: seq<Event>, job: string)
    requires var w := Run(max, true, events); job in w.sending && w.sending[job].attempts < 2
    ensures var w, w' := Run(max, true, events), Run(max, true, events + [Reply(job, NoResponse)]);
            && job in w'.sending && w'.sending[job] == Sending(w.sending[job].payload, w.sending[job].attempts + 1)
            && |PostsOf(w'.log, job)| == |PostsOf(w.log, job)| + 1
  {
    var w := Run(max, true, events);
    RunOne(max, true, events, Reply(job, NoResponse));
    hide Run, PostsOf;
    PostsAfterReply(w, job, w.sending[job].payload, NoResponse);
  }

  lemma GivesUpResult(max: nat, events: seq<Event>, job: string)
    requires var w := Run(max, true, events);
             job in w.sending && w.sending[job].attempts == 2 && w.sending[job].payload.Success?
    ensures var w, w' := Run(max, true, events), Run(max, true, events + [Reply(job, NoResponse)]);
            && job in w'.sending && w'.sending[job] == Sending(FailureNotice, 0)
            && |PostsOf(w'.log, job)| == |PostsOf(w.log, job)| + 1
  {
    var w := Run(max, true, events);
    RunOne(max, true, events, Reply(job, NoResponse));
    hide Run, PostsOf;
    PostsAfterReply(w, job, w.sending[job].payload, NoResponse);
  }

  lemma GivesUpNotice(max: nat, events: seq<Event>, job: string)
    requires var w := Run(max, true, events);
             job in w.sending && w.sending[job].attempts == 2 && w.sending[job].payload == FailureNotice
    ensures var w, w' := Run(max, true, events), Run(max, true, events + [Reply(job, NoResponse)]);
            && job !in w'.sending && |PostsOf(w'.log, job)| == |PostsOf(w.log, job)| + 1
            && job in Service(max, w').jobs && Service(max, w').jobs[job].status == Failed
  {
    var w := Run(max, true, events);
    InvAlways(max, true, events);
    UnderWay(max, w, job);
    RunOne(max, true, events, Reply(job, NoResponse));
    var w1 := Over(w.(log := w.log + [Post(job, w.sending[job].payload, NoResponse)]), job);
    EndsOnly(max, w1, J.NoticeEnds(job), job);
    hide Run, PostsOf, J.Run, Inv;
    PostsAfterReply(w, job, w.sending[job].payload, NoResponse);
  }
}
