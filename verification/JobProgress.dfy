/** No job is ever stuck: whatever has happened, some continuation runs it. */
module JobProgress {
  import opened Sequences
  import opened JobService

  lemma RunOne(max: nat, events: seq<Event>, e: Event)
    ensures Run(max, events + [e]) == Handle(Run(max, events), e)
  {
    hide Handle;
    assert (events + [e])[..|events|] == events;
  }

  /** The job that is next in line. */
  function NextInLine(s: Service): string
    requires |s.started| < |s.created|
  {
    s.created[|s.started|]
  }

  /** s' is s after the next job in line was started. */
  ghost predicate StartedNext(s: Service, s': Service)
    requires |s.started| < |s.created|
  {
    && s'.created == s.created && s'.started == s.started + [NextInLine(s)]
    && NextInLine(s) in s'.jobs && s'.jobs[NextInLine(s)].status.Running?
  }

  lemma LineHead(s: Service)
    requires Ordered(s) && |s.started| < |s.created|
    ensures s.waiters != [] ==> NextInLine(s) == s.waiters[0].job && NextInLine(s) in s.jobs
    ensures s.waiters == [] ==> s.pending != [] && NextInLine(s) == s.pending[0] && NextInLine(s) in s.jobs
  {
    hide NoRepeats;
    assert s.created == s.started + Waiting(s) + s.pending;
    assert NextInLine(s) in s.created;
  }

  /** A woken waiter that resumes is set running. */
  lemma ResumingStarts(s: Service)
    requires Ordered(s) && |s.started| < |s.created| && s.waiters != [] && s.waiters[0].woken
    ensures StartedNext(s, Handle(s, WaiterResumes))
  {
    LineHead(s);
    hide Ordered, WakeNext, AllWoken;
  }

  /** A task that finds a free permit and nobody waiting is set running; otherwise it joins the line. */
  lemma BeginningStarts(s: Service)
    requires Ordered(s) && |s.started| < |s.created| && s.waiters == []
    ensures if s.permits > 0 then StartedNext(s, Handle(s, TaskBegins))
            else Handle(s, TaskBegins) ==
                 s.(pending := s.pending[1..], waiters := [Waiter(NextInLine(s), false)])
  {
    LineHead(s);
    hide Ordered;
  }

  /** When a running or reporting job ends, its permit goes to the first waiter if that is still asleep. */
  lemma EndingWakes(s: Service, e: Event)
    requires Enabled(s, e) && (e.JobCompletes? || e.NoticeEnds?) && s.waiters != [] && !s.waiters[0].woken
    ensures var s' := Handle(s, e);
            && s'.created == s.created && s'.started == s.started
            && s'.waiters == [s.waiters[0].(woken := true)] + s.waiters[1..]
  {
    assert s.waiters[0] in s.waiters;
  }

  /** If the first waiter is asleep, some job is running or reporting whose end would wake it. */
  lemma SomeoneHolds(max: nat, events: seq<Event>) returns (e: Event)
    requires var s := Run(max, events); max >= 1 && s.waiters != [] && !s.waiters[0].woken
    ensures Enabled(Run(max, events), e) && (e.JobCompletes? || e.NoticeEnds?)
  {
    var s := Run(max, events);
    hide Run;
    InvAlways(max, events);
    NoneWokenAfterFirst(max, events);
    if s.reporting != {} {
      var id :| id in s.reporting;
      e := NoticeEnds(id);
    } else {
      var active := Active(s.jobs, s.started);
      assert active != [] && active[0] in active;
      e := JobCompletes(active[0]);
    }
  }

  /** The next job in line can be started. */
  lemma NextCanStart(max: nat, events: seq<Event>) returns (more: seq<Event>)
    requires max >= 1 && |Run(max, events).started| < |Run(max, events).created|
    ensures StartedNext(Run(max, events), Run(max, events + more))
  {
    var s := Run(max, events);
    InvAlways(max, events);
    hide Run, Handle, Ordered, PermitsBalance;
    LineHead(s);
    if s.waiters == [] {
      BeginningStarts(s);
      RunOne(max, events, TaskBegins);
      more := [TaskBegins];
      if s.permits == 0 {
        var rest := WaiterCanStart(max, events + more);
        more := more + rest;
        assert events + more == events + [TaskBegins] + rest;
      }
    } else {
      more := WaiterCanStart(max, events);
    }
  }

  lemma WaiterCanStart(max: nat, events: seq<Event>) returns (more: seq<Event>)
    requires max >= 1 && Run(max, events).waiters != [] && |Run(max, events).started| < |Run(max, events).created|
    ensures StartedNext(Run(max, events), Run(max, events + more))
  {
    var s := Run(max, events);
    InvAlways(max, events);
    hide Run, Handle, Ordered, PermitsBalance;
    if s.waiters[0].woken {
      more := [WaiterResumes];
      ResumingStarts(s);
      RunOne(max, events, WaiterResumes);
    } else {
      var e := SomeoneHolds(max, events);
      EndingWakes(s, e);
      RunOne(max, events, e);
      InvAlways(max, events + [e]);
      ResumingStarts(Run(max, events + [e]));
      RunOne(max, events + [e], WaiterResumes);
      more := [e, WaiterResumes];
      assert events + more == events + [e] + [WaiterResumes];
    }
  }

  /** Created jobs that are not yet running come later in the line than all that were started. */
  lemma QueuedIsLater(s: Service, p: nat)
    requires Ordered(s) && p < |s.created|
    ensures s.created[p] in s.jobs
    ensures s.jobs[s.created[p]].status.Queued? ==> p >= |s.started|
    ensures |s.started| <= |s.created| && s.started == s.created[..|s.started|]
  {
    assert s.created[p] in s.created;
    assert s.created == s.started + (Waiting(s) + s.pending);
    if p < |s.started| {
      assert s.created[p] == s.started[p];
    }
  }

  /** From any reachable state every queued job can come to run, if any job may run at all. */
  lemma EveryJobCanRun(max: nat, events: seq<Event>, id: string) returns (more: seq<Event>)
    requires max >= 1 && id in Run(max, events).jobs && Run(max, events).jobs[id].status.Queued?
    ensures var s := Run(max, events + more); id in s.jobs && s.jobs[id].status.Running?
  {
    var s := Run(max, events);
    InvAlways(max, events);
    var p := PlaceOf(s, id);
    QueuedIsLater(s, p);
    hide Run, Ordered, PermitsBalance;
    more := PlaceCanRun(max, events, p);
  }

  lemma PlaceOf(s: Service, id: string) returns (p: nat)
    requires Ordered(s) && id in s.jobs
    ensures p < |s.created| && s.created[p] == id
  {
    assert id in s.created;
    p :| 0 <= p < |s.created| && s.created[p] == id;
  }

  lemma {:induction false} PlaceCanRun(max: nat, events: seq<Event>, p: nat) returns (more: seq<Event>)
    requires var s := Run(max, events); max >= 1 && |s.started| <= p < |s.created|
    ensures var id, s := Run(max, events).created[p], Run(max, events + more);
            id in s.jobs && s.jobs[id].status.Running?
    decreases p - |Run(max, events).started|
  {
    hide Run;
    more := NextCanStart(max, events);
    if p > |Run(max, events).started| {
      var rest := PlaceCanRun(max, events + more, p);
      assert events + more + rest == events + (more + rest);
      more := more + rest;
    }
  }
}
