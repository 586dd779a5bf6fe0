/** Reporting a job's outcome to the backend: three attempts per submission, and a failure notice if the job fails. */
module Callback {
  import opened Catalog
  import opened EvidenceBudget
  import opened Planning
  import opened Bridge
  import opened Workflow
  import opened Runs

  datatype Response = NoResponse | Http(status: int, decodes: bool)

  /** What a post carries: the report with the tools and the outcome of each evidence item, or a failure notice. */
  datatype Payload =
    | Success(report: Report, findings: nat, tools: seq<string>, evidence: seq<(string, bool)>)
    | FailureNotice

  datatype Post = Post(key: string, payload: Payload, response: Response)

  datatype Status = Queued | Running | Completed | Failed

  const MAX_ATTEMPTS := 3

  /** The attempt returns: no transport or HTTP error, exactly 200, and a body that decodes. */
  predicate Delivers(r: Response) {
    r.Http? && r.status == 200 && r.decodes
  }

  /** The posts of one submission from attempt k on: it stops at the first attempt that returns. */
  function Attempts(key: string, payload: Payload, replies: nat -> Response, k: nat): seq<Post>
    decreases MAX_ATTEMPTS - k
  {
    if k >= MAX_ATTEMPTS then []
    else [Post(key, payload, replies(k))] +
         if Delivers(replies(k)) then [] else Attempts(key, payload, replies, k + 1)
  }

  predicate Succeeds(replies: nat -> Response) {
    exists k :: 0 <= k < MAX_ATTEMPTS && Delivers(replies(k))
  }

  function PayloadOf(s: State): Payload
    requires s.report.Some?
  {
    Success(s.report.value, |s.report.value.assessment.findings|,
            seq(|s.evidence|, i requires 0 <= i < |s.evidence| => s.evidence[i].tool),
            seq(|s.evidence|, i requires 0 <= i < |s.evidence| => (s.evidence[i].id, s.evidence[i].ok)))
  }

  lemma AttemptsStep(key: string, payload: Payload, replies: nat -> Response, k: nat)
    requires k < MAX_ATTEMPTS
    ensures Attempts(key, payload, replies, k) ==
            if Delivers(replies(k)) then [Post(key, payload, replies(k))]
            else [Post(key, payload, replies(k))] + Attempts(key, payload, replies, k + 1)
  {
  }

  lemma NoAttemptsLeft(key: string, payload: Payload, replies: nat -> Response)
    ensures Attempts(key, payload, replies, MAX_ATTEMPTS) == []
  {
  }

  /**
   * The posts of one submission: at most three, each the same request with the reply it got; all but the last were
   * not answered 200 with a readable body, and the last was unless it is the third.
   */
  ghost predicate IsSubmission(posts: seq<Post>, key: string, payload: Payload, replies: nat -> Response) {
    && 1 <= |posts| <= 3
    && (forall i :: 0 <= i < |posts| ==> posts[i] == Post(key, payload, replies(i)))
    && (forall i :: 0 <= i < |posts| - 1 ==> posts[i].response != Http(200, true))
    && (|posts| < 3 ==> posts[|posts| - 1].response == Http(200, true))
  }

  lemma AttemptsAreSubmission(key: string, payload: Payload, replies: nat -> Response)
    ensures |Attempts(key, payload, replies, 0)| >= 1
    ensures IsSubmission(Attempts(key, payload, replies, 0), key, payload, replies)
    ensures Succeeds(replies) <==>
            replies(0) == Http(200, true) || replies(1) == Http(200, true) || replies(2) == Http(200, true)
  {
    AttemptsStep(key, payload, replies, 0);
    AttemptsStep(key, payload, replies, 1);
    AttemptsStep(key, payload, replies, 2);
    NoAttemptsLeft(key, payload, replies);
    hide Attempts;
    var posts, first := Attempts(key, payload, replies, 0), Post(key, payload, replies(0));
    var second, third := Post(key, payload, replies(1)), Post(key, payload, replies(2));
    assert posts == if Delivers(replies(0)) then [first]
                    else if Delivers(replies(1)) then [first, second] else [first, second, third];
  }

  class BackendCallbackClient {
    const apiKey: string
    var posts: seq<Post>

    constructor (apiKey: string)
      ensures this.apiKey == apiKey && posts == []
    {
      this.apiKey := apiKey;
      posts := [];
    }

    /** `delivered` tells whether submit returned; every attempt repeats the same request. */
    method Submit(key: string, payload: Payload, replies: nat -> Response) returns (delivered: bool)
      modifies this
      ensures delivered == (apiKey != "" && Succeeds(replies))
      ensures posts == old(posts) + if apiKey == "" then [] else Attempts(key, payload, replies, 0)
    {
      if apiKey == "" {
        return false;
      }
      delivered := SubmitWithRetry(key, payload, replies);
    }

    method SubmitWithRetry(key: string, payload: Payload, replies: nat -> Response) returns (delivered: bool)
      modifies this
      ensures delivered == Succeeds(replies)
      ensures delivered <==>
              replies(0) == Http(200, true) || replies(1) == Http(200, true) || replies(2) == Http(200, true)
      ensures posts == old(posts) + Attempts(key, payload, replies, 0)
      ensures exists sent: seq<Post> :: posts == old(posts) + sent && IsSubmission(sent, key, payload, replies)
    {
      hide Attempts, Delivers, IsSubmission;
      AttemptsAreSubmission(key, payload, replies);
      NoAttemptsLeft(key, payload, replies);
      for k := 0 to MAX_ATTEMPTS
        invariant posts + Attempts(key, payload, replies, k) == old(posts) + Attempts(key, payload, replies, 0)
        invariant forall i :: 0 <= i < k ==> !Delivers(replies(i))
      {
        var post := Post(key, payload, replies(k));
        AttemptsStep(key, payload, replies, k);
        assert posts + ([post] + Attempts(key, payload, replies, k + 1)) ==
               posts + [post] + Attempts(key, payload, replies, k + 1);
        posts := posts + [post];
        if Delivers(replies(k)) {
          assert posts == old(posts) + Attempts(key, payload, replies, 0);
          return true;
        }
      }
      assert posts + [] == posts;
      return false;
    }
  }

  /** All attempts are the same request, and each but the last is one that did not deliver. */
  lemma {:induction false} AttemptsRepeat(key: string, payload: Payload, replies: nat -> Response, k: nat)
    requires k <= MAX_ATTEMPTS
    ensures var posts := Attempts(key, payload, replies, k);
            && |posts| <= MAX_ATTEMPTS - k
            && (forall i :: 0 <= i < |posts| ==> posts[i] == Post(key, payload, replies(k + i)))
            && (forall i :: 0 <= i < |posts| - 1 ==> !Delivers(posts[i].response))
    decreases MAX_ATTEMPTS - k
  {
    hide Delivers;
    if k < MAX_ATTEMPTS {
      AttemptsRepeat(key, payload, replies, k + 1);
      var posts, rest := Attempts(key, payload, replies, k), Attempts(key, payload, replies, k + 1);
      forall i | 1 <= i < |posts| ensures posts[i] == rest[i - 1] {
      }
    }
  }

  /** The last one delivers exactly if any reply to the attempts allowed does. */
  lemma {:induction false} AttemptsDeliver(key: string, payload: Payload, replies: nat -> Response, k: nat)
    requires k <= MAX_ATTEMPTS
    ensures var posts := Attempts(key, payload, replies, k);
            (posts != [] && Delivers(posts[|posts| - 1].response)) <==>
                exists i :: k <= i < MAX_ATTEMPTS && Delivers(replies(i))
    decreases MAX_ATTEMPTS - k
  {
    hide Delivers;
    if k < MAX_ATTEMPTS && !Delivers(replies(k)) {
      AttemptsDeliver(key, payload, replies, k + 1);
      var rest := Attempts(key, payload, replies, k + 1);
      var posts := Attempts(key, payload, replies, k);
      assert posts == [Post(key, payload, replies(k))] + rest;
      assert rest != [] ==> posts[|posts| - 1] == rest[|rest| - 1];
    }
  }

  predicate IsDelivered(p: Post) {
    Delivers(p.response)
  }

  function DeliveredPosts(posts: seq<Post>): seq<Post> {
    if posts == [] then []
    else DeliveredPosts(posts[..|posts| - 1]) + if IsDelivered(posts[|posts| - 1]) then [posts[|posts| - 1]] else []
  }

  lemma {:induction false} NoneDelivered(posts: seq<Post>)
    requires forall p :: p in posts ==> !IsDelivered(p)
    ensures DeliveredPosts(posts) == []
  {
    if posts != [] {
      NoneDelivered(posts[..|posts| - 1]);
    }
  }

  lemma OnlyLastDelivered(posts: seq<Post>)
    requires forall i :: 0 <= i < |posts| - 1 ==> !IsDelivered(posts[i])
    requires posts != [] && IsDelivered(posts[|posts| - 1])
    ensures DeliveredPosts(posts) == [posts[|posts| - 1]]
  {
    NoneDelivered(posts[..|posts| - 1]);
  }

  /** InvestigationRunner.run: run the graph, then submit its result; `returned` tells that neither raised. */
  method Run(req: Request, jobId: string, settings: Settings, env: nat -> Turn,
             callback: BackendCallbackClient, replies: nat -> Response)
    returns (returned: bool, final: State, steps: nat)
    requires settings.maxSteps >= 1
    modifies callback
    ensures steps < settings.maxSteps + 8 && final == After(req, settings, env, steps) && Ended(final)
    ensures final.phase == Finished ==> final.report.Some?
    ensures returned <==> final.phase == Finished && callback.apiKey != "" && Succeeds(replies)
    ensures callback.posts == old(callback.posts) +
              if final.phase == Finished && callback.apiKey != "" then Attempts(jobId, PayloadOf(final), replies, 0)
              else []
  {
    hide After, Attempts, PayloadOf, Succeeds;
    var mcp := new VelociraptorAdapter(settings);
    var recursionError;
    final, steps, recursionError := RunGraph(req, mcp, env, settings.maxSteps + 8);
    FinishedHasReport(req, settings, env, steps);
    if recursionError || final.phase != Finished {
      returned := false;
      return;
    }
    returned := callback.Submit(jobId, PayloadOf(final), replies);
  }

  /** The payload is the run's report, with the tool and the outcome of everything that was collected. */
  ghost predicate Carries(p: Payload, final: State) {
    && p.Success? && final.report.Some? && final.report.value == p.report
    && p.findings == |p.report.assessment.findings|
    && |p.tools| == |p.evidence| == |final.evidence|
    && forall i :: 0 <= i < |final.evidence| ==>
         p.tools[i] == final.evidence[i].tool && p.evidence[i] == (final.evidence[i].id, final.evidence[i].ok)
  }

  lemma PayloadCarries(final: State)
    requires final.report.Some?
    ensures Carries(PayloadOf(final), final)
  {
  }

  /** What one job's posts look like, given how its run ended. */
  ghost predicate Reported(posts: seq<Post>, jobId: string, status: Status, final: State) {
    && |posts| <= 2 * MAX_ATTEMPTS
    && (forall p :: p in posts ==> p.key == jobId)
    && (status == Completed ==>
          && final.phase == Finished && final.report.Some?
          && |DeliveredPosts(posts)| == 1
          && forall p :: p in posts ==> p.payload == PayloadOf(final) && Carries(p.payload, final))
    && (status != Completed ==> forall p :: p in DeliveredPosts(posts) ==> p.payload == FailureNotice)
  }

  /**
   * One job, from its turn to its end: set up, run, and on any failure submit a failure notice.
   * It is completed exactly when the graph finished and an attempt with the result returned; then exactly
   * one attempt returned, and no notice was sent. Of a failed job no attempt with the result returned.
   * All posts carry the job id as their key, at most six in all.
   */
  method Execute(req: Request, jobId: string, settings: Settings, setupWorks: bool, env: nat -> Turn,
                 callback: BackendCallbackClient, resultReplies: nat -> Response, noticeReplies: nat -> Response)
    returns (status: Status, final: State, steps: nat)
    requires settings.maxSteps >= 1 && callback.posts == []
    modifies callback
    ensures status == Completed || status == Status.Failed
    ensures status == Completed <==>
            setupWorks && final.phase == Finished && callback.apiKey != "" && Succeeds(resultReplies)
    ensures setupWorks ==> steps < settings.maxSteps + 8 && final == After(req, settings, env, steps) && Ended(final)
    ensures Reported(callback.posts, jobId, status, final)
  {
    hide After, PayloadOf, Attempts, DeliveredPosts, Succeeds, Carries;
    final, steps := START, 0;
    var returned := false;
    DeliveredOfNone();
    if setupWorks {
      returned, final, steps := Run(req, jobId, settings, env, callback, resultReplies);
      if final.phase == Finished {
        PayloadCarries(final);
        SubmissionProperties(jobId, PayloadOf(final), resultReplies);
      }
      assert callback.posts ==
        if final.phase == Finished && callback.apiKey != "" then Attempts(jobId, PayloadOf(final), resultReplies, 0)
        else [];
    }
    if returned {
      return Completed, final, steps;
    }
    status := Status.Failed;
    ghost var before := callback.posts;
    var _ := callback.Submit(jobId, FailureNotice, noticeReplies);
    SubmissionProperties(jobId, FailureNotice, noticeReplies);
    DeliveredOfSum(before, Attempts(jobId, FailureNotice, noticeReplies, 0));
    assert callback.posts ==
      before + if callback.apiKey == "" then [] else Attempts(jobId, FailureNotice, noticeReplies, 0);
    assert before + [] == before;
    assert DeliveredPosts(before) == [];
  }

  lemma DeliveredOfNone()
    ensures DeliveredPosts([]) == []
  {
  }

  lemma SubmissionProperties(key: string, payload: Payload, replies: nat -> Response)
    ensures var posts := Attempts(key, payload, replies, 0);
            && |posts| <= MAX_ATTEMPTS
            && (forall p :: p in posts ==> p.key == key && p.payload == payload)
            && (Succeeds(replies) ==> |DeliveredPosts(posts)| == 1)
            && (!Succeeds(replies) ==> DeliveredPosts(posts) == [])
            && (forall p :: p in DeliveredPosts(posts) ==> p.payload == payload)
  {
    var posts := Attempts(key, payload, replies, 0);
    AttemptsRepeat(key, payload, replies, 0);
    AttemptsDeliver(key, payload, replies, 0);
    if Succeeds(replies) {
      OnlyLastDelivered(posts);
    } else {
      forall p | p in posts ensures !IsDelivered(p) {
      }
      NoneDelivered(posts);
    }
  }

  /** The backend answered 200, whether or not the body could be read. */
  predicate IsTaken(p: Post) {
    p.response.Http? && p.response.status == 200
  }

  function TakenPosts(posts: seq<Post>): seq<Post> {
    if posts == [] then []
    else TakenPosts(posts[..|posts| - 1]) + if IsTaken(posts[|posts| - 1]) then [posts[|posts| - 1]] else []
  }

  /** Attempts that returned are among those taken, and are all of them exactly if every 200 can be read. */
  lemma {:induction false} TakenAndDelivered(posts: seq<Post>)
    ensures |DeliveredPosts(posts)| <= |TakenPosts(posts)|
    ensures |DeliveredPosts(posts)| == |TakenPosts(posts)| <==> forall p :: p in posts && IsTaken(p) ==> IsDelivered(p)
  {
    if posts != [] {
      var init, last := posts[..|posts| - 1], posts[|posts| - 1];
      TakenAndDelivered(init);
      assert forall p :: p in posts <==> p in init || p == last;
    }
  }

  /** A completed job's result is taken once, not repeatedly under the same key, exactly if every 200 can be read. */
  lemma TakenOnceExactlyWhen(posts: seq<Post>, jobId: string, final: State)
    requires Reported(posts, jobId, Completed, final)
    ensures |TakenPosts(posts)| >= 1
    ensures |TakenPosts(posts)| == 1 <==> forall p :: p in posts && IsTaken(p) ==> IsDelivered(p)
  {
    TakenAndDelivered(posts);
  }

  /** With unreadable bodies all three attempts are taken and the submission still fails. */
  lemma UnreadableBodies(key: string, payload: Payload)
    ensures var replies := (_: nat) => Http(200, false);
            !Succeeds(replies) && |TakenPosts(Attempts(key, payload, replies, 0))| == 3
  {
    var replies := (_: nat) => Http(200, false);
    var post := Post(key, payload, Http(200, false));
    assert Attempts(key, payload, replies, 2) == [post] + Attempts(key, payload, replies, 3);
    assert Attempts(key, payload, replies, 1) == [post] + Attempts(key, payload, replies, 2);
    assert Attempts(key, payload, replies, 0) == [post, post, post];
    assert TakenPosts([]) == [] && [post][..0] == [] && [post, post][..1] == [post];
    assert [post, post, post][..2] == [post, post];
    assert TakenPosts([post]) == [post];
    assert TakenPosts([post, post]) == [post, post];
  }

  lemma {:induction false} DeliveredOfSum(a: seq<Post>, b: seq<Post>)
    ensures DeliveredPosts(a + b) == DeliveredPosts(a) + DeliveredPosts(b)
  {
    if b == [] {
      assert a + b == a;
    } else {
      assert (a + b)[..|a + b| - 1] == a + b[..|b| - 1];
      DeliveredOfSum(a, b[..|b| - 1]);
    }
  }

  lemma {:induction false} FinishedHasReport(req: Request, cfg: Settings, env: nat -> Turn, n: nat)
    ensures After(req, cfg, env, n).phase == Finished ==> After(req, cfg, env, n).report.Some?
  {
    hide Next;
    if n > 0 {
      FinishedHasReport(req, cfg, env, n - 1);
      ReportIsWritten(req, cfg, After(req, cfg, env, n - 1), env(n - 1));
    }
  }

  lemma ReportIsWritten(req: Request, cfg: Settings, s: State, t: Turn)
    requires Ready(s) && (s.phase == Finished ==> s.report.Some?)
    ensures Next(req, cfg, s, t).phase == Finished ==> Next(req, cfg, s, t).report.Some?
  {
    hide Verified, Sanitized, AfterCollect, Fit, Validated, SelectedTier2;
    if s.phase == At(Collect) {
      CollectFrame(req, cfg, s, t);
    }
  }
}
